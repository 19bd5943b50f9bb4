/** Router and host configs for a routing scenario (frontend/app/src/lib/config-generator.ts).
    A config is kept as its addresses, BGP neighbours, OSPF networks and static routes; the text
    lines that carry them are not part of this model. */
module ScenarioConfig {
  import opened Text
  import opened TopologyPrinter
  import opened AddressPlan

  datatype Scenario = Ospf | Ebgp | Static

  datatype NodeLinkInfo = NodeLinkInfo(iface: string, localIP: string, remoteIP: string, network: string,
                                       peerId: string)

  /** What a link means to a node: its source end first, so a self-link shows only that end. */
  function InfoOf(link: BuilderLink, sub: Subnet, nodeId: string): Option<NodeLinkInfo> {
    if link.sourceNodeId == nodeId then
      Some(NodeLinkInfo(link.sourceIface, sub.srcIP, sub.tgtIP, sub.network, link.targetNodeId))
    else if link.targetNodeId == nodeId then
      Some(NodeLinkInfo(link.targetIface, sub.tgtIP, sub.srcIP, sub.network, link.sourceNodeId))
    else None
  }

  function LinksOfNode(nodeId: string, links: seq<BuilderLink>, subnets: map<string, Subnet>): seq<NodeLinkInfo> {
    if links == [] then []
    else
      var rest := LinksOfNode(nodeId, links[1..], subnets);
      if links[0].id in subnets && InfoOf(links[0], subnets[links[0].id], nodeId).Some?
      then [InfoOf(links[0], subnets[links[0].id], nodeId).value] + rest else rest
  }

  lemma LinksOfNodeFrom(nodeId: string, links: seq<BuilderLink>, i: nat, subnets: map<string, Subnet>)
    requires i < |links|
    ensures LinksOfNode(nodeId, links[i..], subnets)
         == (if links[i].id in subnets && InfoOf(links[i], subnets[links[i].id], nodeId).Some?
             then [InfoOf(links[i], subnets[links[i].id], nodeId).value] else [])
            + LinksOfNode(nodeId, links[i + 1..], subnets)
  {
    hide InfoOf;
    assert links[i..][0] == links[i] && links[i..][1..] == links[i + 1..];
  }

  method GetNodeLinks(nodeId: string, links: seq<BuilderLink>, subnets: map<string, Subnet>)
    returns (result: seq<NodeLinkInfo>)
    ensures result == LinksOfNode(nodeId, links, subnets)
  {
    result := [];
    for i := 0 to |links|
      invariant result + LinksOfNode(nodeId, links[i..], subnets) == LinksOfNode(nodeId, links, subnets)
    {
      hide LinksOfNode;
      var link := links[i];
      LinksOfNodeFrom(nodeId, links, i, subnets);
      if link.id !in subnets {
        continue;
      }
      var sub := subnets[link.id];
      if link.sourceNodeId == nodeId {
        result := result + [NodeLinkInfo(link.sourceIface, sub.srcIP, sub.tgtIP, sub.network, link.targetNodeId)];
      } else if link.targetNodeId == nodeId {
        result := result + [NodeLinkInfo(link.targetIface, sub.tgtIP, sub.srcIP, sub.network, link.sourceNodeId)];
      }
    }
  }

  function NosKindOf(n: BuilderNode): string {
    ResolveNosKind(n.clabKind, n.dockerImage)
  }

  predicate IsRouter(n: BuilderNode) {
    NosKindOf(n) in {"mikrotik_ros", "frr", "openwrt", "freebsd", "gobgp"}
  }

  function Routers(nodes: seq<BuilderNode>): (r: seq<BuilderNode>)
    ensures forall n :: n in r <==> n in nodes && IsRouter(n)
  {
    if nodes == [] then []
    else (if IsRouter(nodes[0]) then [nodes[0]] else []) + Routers(nodes[1..])
  }

  // ----- Neighbours and routes -----

  datatype Neighbor = Neighbor(address: string, asNumber: nat)

  datatype Route = Route(network: string, gateway: string)

  /** One neighbour a link whose peer has an AS number other than the local one. */
  function Neighbors(infos: seq<NodeLinkInfo>, localAS: nat, asMap: map<string, nat>): seq<Neighbor> {
    if infos == [] then []
    else
      var li := infos[0];
      (if li.peerId in asMap && asMap[li.peerId] != 0 && asMap[li.peerId] != localAS
       then [Neighbor(li.remoteIP, asMap[li.peerId])] else [])
      + Neighbors(infos[1..], localAS, asMap)
  }

  method CollectNeighbors(infos: seq<NodeLinkInfo>, localAS: nat, asMap: map<string, nat>)
    returns (neighbors: seq<Neighbor>)
    ensures neighbors == Neighbors(infos, localAS, asMap)
  {
    neighbors := [];
    for i := 0 to |infos|
      invariant neighbors + Neighbors(infos[i..], localAS, asMap) == Neighbors(infos, localAS, asMap)
    {
      var li := infos[i];
      assert infos[i..][0] == li && infos[i..][1..] == infos[i + 1..];
      if li.peerId !in asMap || asMap[li.peerId] == 0 || asMap[li.peerId] == localAS {
        continue;
      }
      neighbors := neighbors + [Neighbor(li.remoteIP, asMap[li.peerId])];
    }
  }

  /** The routes via one link: the peer's other networks. */
  function RoutesVia(li: NodeLinkInfo, peerLinks: seq<NodeLinkInfo>): seq<Route> {
    if peerLinks == [] then []
    else
      (if peerLinks[0].network != li.network then [Route(peerLinks[0].network, li.remoteIP)] else [])
      + RoutesVia(li, peerLinks[1..])
  }

  function PeerLinks(all: map<string, seq<NodeLinkInfo>>, id: string): seq<NodeLinkInfo> {
    if id in all then all[id] else []
  }

  function Routes(infos: seq<NodeLinkInfo>, all: map<string, seq<NodeLinkInfo>>): seq<Route> {
    if infos == [] then []
    else RoutesVia(infos[0], PeerLinks(all, infos[0].peerId)) + Routes(infos[1..], all)
  }

  method CollectRoutesVia(before: seq<Route>, li: NodeLinkInfo, peerLinks: seq<NodeLinkInfo>)
    returns (routes: seq<Route>)
    ensures routes == before + RoutesVia(li, peerLinks)
  {
    routes := before;
    for j := 0 to |peerLinks|
      invariant routes + RoutesVia(li, peerLinks[j..]) == before + RoutesVia(li, peerLinks)
    {
      assert peerLinks[j..][0] == peerLinks[j] && peerLinks[j..][1..] == peerLinks[j + 1..];
      if peerLinks[j].network != li.network {
        routes := routes + [Route(peerLinks[j].network, li.remoteIP)];
      }
    }
  }

  lemma RoutesFrom(infos: seq<NodeLinkInfo>, i: nat, all: map<string, seq<NodeLinkInfo>>)
    requires i < |infos|
    ensures Routes(infos[i..], all)
         == RoutesVia(infos[i], PeerLinks(all, infos[i].peerId)) + Routes(infos[i + 1..], all)
  {
    hide RoutesVia, PeerLinks;
    assert infos[i..][0] == infos[i] && infos[i..][1..] == infos[i + 1..];
  }

  method CollectRoutes(infos: seq<NodeLinkInfo>, all: map<string, seq<NodeLinkInfo>>) returns (routes: seq<Route>)
    ensures routes == Routes(infos, all)
  {
    hide RoutesVia;
    routes := [];
    for i := 0 to |infos|
      invariant routes + Routes(infos[i..], all) == Routes(infos, all)
    {
      hide Routes, PeerLinks;
      RoutesFrom(infos, i, all);
      routes := CollectRoutesVia(routes, infos[i], PeerLinks(all, infos[i].peerId));
    }
  }

  // ----- The generator -----

  datatype Address = Address(iface: string, ip: string)

  function Addresses(infos: seq<NodeLinkInfo>): (r: seq<Address>)
    ensures |r| == |infos| && forall i | 0 <= i < |r| :: r[i] == Address(infos[i].iface, infos[i].localIP)
  {
    if infos == [] then [] else [Address(infos[0].iface, infos[0].localIP)] + Addresses(infos[1..])
  }

  function Networks(infos: seq<NodeLinkInfo>): (r: seq<string>)
    ensures |r| == |infos| && forall i | 0 <= i < |r| :: r[i] == infos[i].network
  {
    if infos == [] then [] else [infos[0].network] + Networks(infos[1..])
  }

  /** A router's config; only OSPF and BGP name a router id, and only BGP an AS number. */
  datatype Config = Config(addresses: seq<Address>, routerId: Option<string>, localAS: Option<nat>,
                           ospf: seq<string>, neighbors: seq<Neighbor>, routes: seq<Route>)

  predicate UsesBgp(kind: string, scenario: Scenario) {
    scenario == Ebgp && kind in {"mikrotik_ros", "frr", "gobgp"}
  }

  predicate UsesOspf(kind: string, scenario: Scenario) {
    scenario == Ospf && kind in {"mikrotik_ros", "frr"}
  }

  /** OpenWrt and FreeBSD get static routes in every scenario, GoBGP in all but eBGP. */
  predicate UsesStatic(kind: string, scenario: Scenario) {
    !UsesBgp(kind, scenario) && !UsesOspf(kind, scenario)
  }

  function RouterConfig(kind: string, scenario: Scenario, infos: seq<NodeLinkInfo>, loopback: string, localAS: nat,
                        asMap: map<string, nat>, all: map<string, seq<NodeLinkInfo>>): Config {
    var addresses := Addresses(infos);
    if UsesOspf(kind, scenario) then Config(addresses, Some(loopback), None, Networks(infos), [], [])
    else if UsesBgp(kind, scenario)
    then Config(addresses, Some(loopback), Some(localAS), [], Neighbors(infos, localAS, asMap), [])
    else Config(addresses, None, None, [], [], Routes(infos, all))
  }

  /** A host routes by default over each link, and to the other networks of its first peer. */
  datatype HostConfig = HostConfig(addresses: seq<Address>, defaults: seq<string>, routes: seq<Route>)

  function Gateways(infos: seq<NodeLinkInfo>): (r: seq<string>)
    ensures |r| == |infos| && forall i | 0 <= i < |r| :: r[i] == infos[i].remoteIP
  {
    if infos == [] then [] else [infos[0].remoteIP] + Gateways(infos[1..])
  }

  function HostConfigOf(infos: seq<NodeLinkInfo>, all: map<string, seq<NodeLinkInfo>>): HostConfig {
    HostConfig(Addresses(infos), Gateways(infos),
               if infos == [] then [] else RoutesVia(infos[0], PeerLinks(all, infos[0].peerId)))
  }

  function AllRouterLinks(routers: seq<BuilderNode>, links: seq<BuilderLink>): map<string, seq<NodeLinkInfo>> {
    map id | id in (set n | n in routers :: n.id) :: LinksOfNode(id, links, Subnets(links))
  }

  /** AS numbers are only handed out for eBGP. */
  function ScenarioASNumbers(scenario: Scenario, routers: seq<BuilderNode>): map<string, nat> {
    if scenario == Ebgp then ASNumbers(routers) else map[]
  }

  function LocalAS(asMap: map<string, nat>, id: string): nat {
    if id in asMap && asMap[id] != 0 then asMap[id] else 65001
  }

  /** The loopback of a router, or a default the generator never needs. */
  function LoopbackOf(loopbacks: map<string, string>, id: string): string {
    if id in loopbacks && loopbacks[id] != "" then loopbacks[id] else "0.0.0.0"
  }

  /** The config of one router of the state. */
  function ConfigOf(state: BuilderState, scenario: Scenario, n: BuilderNode): Config {
    var routers := Routers(state.nodes);
    var asMap := ScenarioASNumbers(scenario, routers);
    RouterConfig(NosKindOf(n), scenario, LinksOfNode(n.id, state.links, Subnets(state.links)),
                 LoopbackOf(Loopbacks(routers), n.id), LocalAS(asMap, n.id), asMap,
                 AllRouterLinks(routers, state.links))
  }

  method GenerateRouterConfig(kind: string, scenario: Scenario, infos: seq<NodeLinkInfo>, loopback: string,
                              localAS: nat, asMap: map<string, nat>, all: map<string, seq<NodeLinkInfo>>)
    returns (c: Config)
    requires kind in {"mikrotik_ros", "frr", "openwrt", "freebsd", "gobgp"}
    ensures c == RouterConfig(kind, scenario, infos, loopback, localAS, asMap, all)
  {
    hide Neighbors, Routes;
    var addresses := Addresses(infos);
    if kind == "mikrotik_ros" || kind == "frr" {
      match scenario {
        case Ospf => c := Config(addresses, Some(loopback), None, Networks(infos), [], []);
        case Ebgp =>
          var neighbors := CollectNeighbors(infos, localAS, asMap);
          c := Config(addresses, Some(loopback), Some(localAS), [], neighbors, []);
        case Static =>
          var routes := CollectRoutes(infos, all);
          c := Config(addresses, None, None, [], [], routes);
      }
    } else if kind == "gobgp" && scenario == Ebgp {
      var neighbors := CollectNeighbors(infos, localAS, asMap);
      c := Config(addresses, Some(loopback), Some(localAS), [], neighbors, []);
    } else {
      var routes := CollectRoutes(infos, all);
      c := Config(addresses, None, None, [], [], routes);
    }
  }

  method PrecomputeRouterLinks(routers: seq<BuilderNode>, links: seq<BuilderLink>, subnets: map<string, Subnet>)
    returns (all: map<string, seq<NodeLinkInfo>>)
    requires subnets == Subnets(links)
    ensures all == AllRouterLinks(routers, links)
  {
    hide LinksOfNode, Subnets;
    all := map[];
    for i := 0 to |routers|
      invariant all.Keys == set n | n in routers[..i] :: n.id
      invariant forall id | id in all :: all[id] == LinksOfNode(id, links, subnets)
    {
      var infos := GetNodeLinks(routers[i].id, links, subnets);
      assert routers[..i + 1] == routers[..i] + [routers[i]];
      all := all[routers[i].id := infos];
    }
    assert routers[..|routers|] == routers;
  }

  /** What a host with at least one link is told. */
  function HostConfigIn(state: BuilderState, id: string): HostConfig {
    HostConfigOf(LinksOfNode(id, state.links, Subnets(state.links)), AllRouterLinks(Routers(state.nodes), state.links))
  }

  lemma ConfigIs(state: BuilderState, scenario: Scenario, n: BuilderNode)
    requires n in state.nodes && IsRouter(n)
    ensures var routers := Routers(state.nodes);
            var asMap, all := ScenarioASNumbers(scenario, routers), AllRouterLinks(routers, state.links);
            && n.id in all
            && ConfigOf(state, scenario, n)
            == RouterConfig(NosKindOf(n), scenario, all[n.id], LoopbackOf(Loopbacks(routers), n.id),
                            LocalAS(asMap, n.id), asMap, all)
  {
    hide LinksOfNode, Subnets, ASNumbers, Loopbacks, RouterConfig, IsRouter;
  }

  method ConfigureRouters(state: BuilderState, scenario: Scenario, routers: seq<BuilderNode>,
                          all: map<string, seq<NodeLinkInfo>>) returns (configs: seq<Config>)
    requires routers == Routers(state.nodes) && all == AllRouterLinks(routers, state.links)
    ensures |configs| == |routers|
    ensures forall i | 0 <= i < |routers| :: configs[i] == ConfigOf(state, scenario, routers[i])
  {
    hide ConfigOf, AllRouterLinks, ASNumbers, Loopbacks, LoopbackOf, LocalAS, RouterConfig;
    var loopbacks := AllocateLoopbacks(routers);
    var asNumbers: map<string, nat> := map[];
    if scenario == Ebgp {
      asNumbers := AllocateASNumbers(routers);
    }
    configs := [];
    for i := 0 to |routers|
      invariant |configs| == i
      invariant forall k | 0 <= k < i :: configs[k] == ConfigOf(state, scenario, routers[k])
    {
      var node := routers[i];
      assert node in routers;
      ConfigIs(state, scenario, node);
      var c := GenerateRouterConfig(NosKindOf(node), scenario, all[node.id], LoopbackOf(loopbacks, node.id),
                                    LocalAS(asNumbers, node.id), asNumbers, all);
      configs := configs + [c];
    }
  }

  method ConfigureHosts(state: BuilderState, subnets: map<string, Subnet>, all: map<string, seq<NodeLinkInfo>>)
    returns (hosts: map<string, HostConfig>)
    requires subnets == Subnets(state.links) && all == AllRouterLinks(Routers(state.nodes), state.links)
    ensures forall id :: id in hosts <==> IsLinkedHost(state, id)
    ensures forall id | id in hosts :: hosts[id] == HostConfigIn(state, id)
  {
    hide LinksOfNode, Subnets, AllRouterLinks, HostConfigOf, IsRouter, Routers;
    hosts := map[];
    for i := 0 to |state.nodes|
      invariant forall id :: id in hosts <==> exists n :: n in state.nodes[..i] && n.id == id && LinkedHost(state, n)
      invariant forall id | id in hosts :: hosts[id] == HostConfigIn(state, id)
    {
      var node := state.nodes[i];
      assert state.nodes[..i + 1] == state.nodes[..i] + [node];
      var infos := GetNodeLinks(node.id, state.links, subnets);
      if !IsRouter(node) && |infos| > 0 {
        hosts := hosts[node.id := HostConfigOf(infos, all)];
      }
    }
    assert state.nodes[..|state.nodes|] == state.nodes;
  }

  predicate LinkedHost(state: BuilderState, n: BuilderNode) {
    !IsRouter(n) && LinksOfNode(n.id, state.links, Subnets(state.links)) != []
  }

  predicate IsLinkedHost(state: BuilderState, id: string) {
    exists n :: n in state.nodes && n.id == id && LinkedHost(state, n)
  }

  /** One config a router, in node order, and one for each host that has a link. */
  method GenerateScenarioConfigs(state: BuilderState, scenario: Scenario)
    returns (routers: seq<BuilderNode>, configs: seq<Config>, hosts: map<string, HostConfig>)
    ensures routers == Routers(state.nodes) && |configs| == |routers|
    ensures forall i | 0 <= i < |routers| :: configs[i] == ConfigOf(state, scenario, routers[i])
    ensures forall id :: id in hosts <==> IsLinkedHost(state, id)
    ensures forall id | id in hosts :: hosts[id] == HostConfigIn(state, id)
  {
    hide LinksOfNode, Subnets, AllRouterLinks, ConfigOf, HostConfigIn, IsLinkedHost;
    routers := Routers(state.nodes);
    var subnets := AllocateSubnets(state.links);
    var all := PrecomputeRouterLinks(routers, state.links, subnets);
    configs := ConfigureRouters(state, scenario, routers, all);
    hosts := ConfigureHosts(state, subnets, all);
  }
}
