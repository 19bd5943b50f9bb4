/** What the generated configs say about the two ends of every link
    (frontend/app/src/lib/config-generator.ts). */
module Routing {
  import opened Text
  import opened TopologyPrinter
  import opened AddressPlan
  import opened ScenarioConfig

  // ----- Links as a node sees them -----

  /** What link i means to a node under the address plan. */
  function InfoAt(links: seq<BuilderLink>, i: int, id: string): Option<NodeLinkInfo> {
    if 0 <= i < |links| then InfoOf(links[i], SubnetOf(i + 1), id) else None
  }

  function SeenFrom(id: string, links: seq<BuilderLink>): seq<NodeLinkInfo> {
    LinksOfNode(id, links, Subnets(links))
  }

  predicate ShownBy(links: seq<BuilderLink>, subnets: map<string, Subnet>, i: int, id: string, info: NodeLinkInfo) {
    && 0 <= i < |links| && links[i].id in subnets
    && InfoOf(links[i], subnets[links[i].id], id) == Some(info)
  }

  lemma {:induction false} LinkMember(links: seq<BuilderLink>, subnets: map<string, Subnet>, id: string,
                                      info: NodeLinkInfo)
    ensures info in LinksOfNode(id, links, subnets) <==> exists i :: ShownBy(links, subnets, i, id, info)
  {
    hide InfoOf;
    if links != [] {
      var rest := links[1..];
      LinkMember(rest, subnets, id, info);
      assert forall i | 0 <= i < |rest| :: rest[i] == links[i + 1];
      if i :| ShownBy(rest, subnets, i, id, info) {
        assert ShownBy(links, subnets, i + 1, id, info);
      }
      if i :| ShownBy(links, subnets, i, id, info) {
        if i > 0 {
          assert ShownBy(rest, subnets, i - 1, id, info);
        }
      }
      if links[0].id in subnets && InfoOf(links[0], subnets[links[0].id], id) == Some(info) {
        assert ShownBy(links, subnets, 0, id, info);
      }
    }
  }

  /** A node sees exactly the links that have it as an end, each with the addresses of that link. */
  lemma NodeSeesItsLinks(links: seq<BuilderLink>, id: string, info: NodeLinkInfo)
    requires DistinctLinkIds(links)
    ensures info in SeenFrom(id, links) <==> exists i :: InfoAt(links, i, id) == Some(info)
  {
    hide LinksOfNode, Subnets, InfoOf, SubnetOf;
    LinkMember(links, Subnets(links), id, info);
    forall i | 0 <= i < |links|
      ensures ShownBy(links, Subnets(links), i, id, info) <==> InfoAt(links, i, id) == Some(info)
    {
      SubnetOfLink(links, i);
    }
  }

  function NearSide(link: BuilderLink, id: string): Side {
    if link.sourceNodeId == id then Source else Target
  }

  lemma NearAddress(links: seq<BuilderLink>, i: nat, id: string)
    requires InfoAt(links, i, id).Some?
    ensures i < |links| && InfoAt(links, i, id).value.localIP == AddressAt(i + 1, NearSide(links[i], id))
    ensures links[i].sourceNodeId == id || links[i].targetNodeId == id
  {
    hide SubnetOf;
  }

  /** The addresses of two (node, link) pairs are the same only for the same pair. */
  lemma InterfaceAddressesDistinct(links: seq<BuilderLink>, i: nat, n: string, j: nat, m: string)
    requires InfoAt(links, i, n).Some? && InfoAt(links, j, m).Some?
    ensures InfoAt(links, i, n).value.localIP == InfoAt(links, j, m).value.localIP <==> i == j && n == m
  {
    hide InfoAt, AddressAt;
    NearAddress(links, i, n);
    NearAddress(links, j, m);
    AddressesDistinct(i + 1, NearSide(links[i], n), j + 1, NearSide(links[j], m));
  }

  /** The link joins two different nodes, n and p. */
  predicate Joins(link: BuilderLink, n: string, p: string) {
    n != p && ((link.sourceNodeId == n && link.targetNodeId == p) || (link.sourceNodeId == p && link.targetNodeId == n))
  }

  predicate Touches(link: BuilderLink, n: string) {
    link.sourceNodeId == n || link.targetNodeId == n
  }

  /** The address a node has on link i, and "" if the link is not the node's. */
  function AddressOn(links: seq<BuilderLink>, i: int, id: string): string {
    if InfoAt(links, i, id).Some? then InfoAt(links, i, id).value.localIP else ""
  }

  /** Both ends agree: one network, and each one's remote address is the other's local one. */
  lemma EndsAgree(links: seq<BuilderLink>, i: nat, n: string, p: string)
    requires i < |links| && Joins(links[i], n, p)
    ensures InfoAt(links, i, n).Some? && InfoAt(links, i, p).Some?
    ensures InfoAt(links, i, n).value.remoteIP == AddressOn(links, i, p)
    ensures InfoAt(links, i, p).value.remoteIP == AddressOn(links, i, n)
    ensures InfoAt(links, i, n).value.network == Network(i + 1) == InfoAt(links, i, p).value.network
    ensures InfoAt(links, i, n).value.peerId == p && InfoAt(links, i, p).value.peerId == n
  {
    hide Network;
  }

  lemma {:induction false} RoutersDistinct(nodes: seq<BuilderNode>)
    requires DistinctNodeIds(nodes)
    ensures DistinctNodeIds(Routers(nodes))
  {
    hide IsRouter;
    if nodes != [] {
      RoutersDistinct(nodes[1..]);
      forall n | n in Routers(nodes[1..])
        ensures n.id != nodes[0].id
      {
        var i :| 0 <= i < |nodes[1..]| && nodes[1..][i] == n;
        assert nodes[i + 1] == n;
      }
    }
  }

  // ----- eBGP peering -----

  /** The AS number of a router in the eBGP scenario. */
  function ASOf(state: BuilderState, p: BuilderNode): nat {
    LocalAS(ASNumbers(Routers(state.nodes)), p.id)
  }

  /** The AS number of a router is the one the table holds, and no other router holds it. */
  lemma ASOfRouter(state: BuilderState, p: BuilderNode)
    requires DistinctNodeIds(state.nodes) && p in state.nodes && IsRouter(p)
    ensures var asMap := ASNumbers(Routers(state.nodes));
            p.id in asMap && asMap[p.id] == ASOf(state, p) >= 65001
    ensures forall q | q in state.nodes && IsRouter(q) && q.id != p.id :: ASOf(state, q) != ASOf(state, p)
  {
    hide ASNumbers, Loopbacks, IsRouter;
    var routers := Routers(state.nodes);
    RoutersDistinct(state.nodes);
    var i :| 0 <= i < |routers| && routers[i] == p;
    RouterNumbers(routers, i);
    forall q | q in state.nodes && IsRouter(q) && q.id != p.id
      ensures ASOf(state, q) != ASOf(state, p)
    {
      var j :| 0 <= j < |routers| && routers[j] == q;
      RouterNumbers(routers, j);
    }
  }

  lemma ASHolder(state: BuilderState, id: string)
    requires id in ASNumbers(Routers(state.nodes))
    ensures exists p :: p in state.nodes && IsRouter(p) && p.id == id
  {
    hide IsRouter;
    var routers := Routers(state.nodes);
    OnlyRoutersHaveNumbers(routers, id);
    var i :| 0 <= i < |routers| && routers[i].id == id;
    assert routers[i] in routers;
  }

  /** No two routers that name a router id name the same one. */
  lemma RouterIdsDistinct(state: BuilderState, scenario: Scenario, n: BuilderNode, p: BuilderNode)
    requires DistinctNodeIds(state.nodes) && n in state.nodes && p in state.nodes && IsRouter(n) && IsRouter(p)
    requires n.id != p.id && ConfigOf(state, scenario, n).routerId.Some?
    ensures ConfigOf(state, scenario, n).routerId != ConfigOf(state, scenario, p).routerId
  {
    hide Loopback, Loopbacks, ASNumbers, IsRouter, Routers, LinksOfNode, Subnets, Neighbors, Routes, AllRouterLinks,
         NosKindOf;
    var routers := Routers(state.nodes);
    RoutersDistinct(state.nodes);
    var i :| 0 <= i < |routers| && routers[i] == n;
    var j :| 0 <= j < |routers| && routers[j] == p;
    NumbersDistinct(routers, i, j);
    RouterNumbers(routers, i);
    RouterNumbers(routers, j);
    LoopbackNotEmpty(i);
    LoopbackNotEmpty(j);
  }

  lemma LoopbackNotEmpty(i: nat)
    ensures Loopback(i) != ""
  {
    hide Decimal;
    assert |Loopback(i)| >= 3;
  }

  predicate Peers(li: NodeLinkInfo, localAS: nat, asMap: map<string, nat>) {
    li.peerId in asMap && asMap[li.peerId] != 0 && asMap[li.peerId] != localAS
  }

  lemma {:induction false} NeighborMember(infos: seq<NodeLinkInfo>, localAS: nat, asMap: map<string, nat>, nb: Neighbor)
    ensures nb in Neighbors(infos, localAS, asMap)
       <==> exists li :: li in infos && Peers(li, localAS, asMap) && nb == Neighbor(li.remoteIP, asMap[li.peerId])
  {
    if infos != [] {
      NeighborMember(infos[1..], localAS, asMap, nb);
      assert infos == [infos[0]] + infos[1..];
    }
  }

  /** The neighbour that link i gives router n: the address and AS number of router p at its other end. */
  predicate PeeringOver(state: BuilderState, n: BuilderNode, nb: Neighbor, i: int, p: BuilderNode) {
    && 0 <= i < |state.links| && p in state.nodes && IsRouter(p) && Joins(state.links[i], n.id, p.id)
    && nb == Neighbor(AddressOn(state.links, i, p.id), ASOf(state, p))
  }

  lemma PeeringFromInfo(state: BuilderState, n: BuilderNode, i: nat, li: NodeLinkInfo) returns (p: BuilderNode)
    requires DistinctNodeIds(state.nodes) && n in state.nodes && IsRouter(n)
    requires InfoAt(state.links, i, n.id) == Some(li) && Peers(li, ASOf(state, n), ASNumbers(Routers(state.nodes)))
    ensures PeeringOver(state, n, Neighbor(li.remoteIP, ASNumbers(Routers(state.nodes))[li.peerId]), i, p)
  {
    hide ASNumbers, Routers, IsRouter, ASOf, SubnetOf;
    ASHolder(state, li.peerId);
    p :| p in state.nodes && IsRouter(p) && p.id == li.peerId;
    ASOfRouter(state, n);
    ASOfRouter(state, p);
    assert Joins(state.links[i], n.id, p.id);
    EndsAgree(state.links, i, n.id, p.id);
  }

  lemma InfoFromPeering(state: BuilderState, n: BuilderNode, nb: Neighbor, i: int, p: BuilderNode)
    requires DistinctNodeIds(state.nodes) && n in state.nodes && IsRouter(n) && PeeringOver(state, n, nb, i, p)
    ensures InfoAt(state.links, i, n.id).Some?
    ensures var li := InfoAt(state.links, i, n.id).value;
            var asMap := ASNumbers(Routers(state.nodes));
            Peers(li, ASOf(state, n), asMap) && nb == Neighbor(li.remoteIP, asMap[li.peerId])
  {
    hide ASNumbers, Routers, IsRouter, ASOf, SubnetOf, InfoAt;
    ASOfRouter(state, n);
    ASOfRouter(state, p);
    EndsAgree(state.links, i, n.id, p.id);
  }

  /** A BGP router's neighbours are exactly the routers at the other ends of its links, each by its
      address on that link and by the AS number it gives itself. */
  lemma NeighborsExact(state: BuilderState, n: BuilderNode, nb: Neighbor)
    requires DistinctNodeIds(state.nodes) && DistinctLinkIds(state.links)
    requires n in state.nodes && IsRouter(n) && UsesBgp(NosKindOf(n), Ebgp)
    ensures ConfigOf(state, Ebgp, n).localAS == Some(ASOf(state, n))
    ensures nb in ConfigOf(state, Ebgp, n).neighbors <==> exists i, p :: PeeringOver(state, n, nb, i, p)
  {
    hide LinksOfNode, Subnets, ASNumbers, Routers, IsRouter, Neighbors, Routes, AllRouterLinks, Loopbacks, InfoAt,
         PeeringOver, NosKindOf;
    var asMap := ASNumbers(Routers(state.nodes));
    var infos := SeenFrom(n.id, state.links);
    NeighborMember(infos, ASOf(state, n), asMap, nb);
    if nb in Neighbors(infos, ASOf(state, n), asMap) {
      var li :| li in infos && Peers(li, ASOf(state, n), asMap) && nb == Neighbor(li.remoteIP, asMap[li.peerId]);
      NodeSeesItsLinks(state.links, n.id, li);
      var i :| InfoAt(state.links, i, n.id) == Some(li);
      InfoInRange(state.links, i, n.id);
      var p := PeeringFromInfo(state, n, i, li);
    }
    if i, p :| PeeringOver(state, n, nb, i, p) {
      InfoFromPeering(state, n, nb, i, p);
      NodeSeesItsLinks(state.links, n.id, InfoAt(state.links, i, n.id).value);
    }
  }

  lemma InfoInRange(links: seq<BuilderLink>, i: int, id: string)
    requires InfoAt(links, i, id).Some?
    ensures 0 <= i < |links|
  {
  }

  /** The config gives an interface this address. */
  predicate Configures(c: Config, ip: string) {
    exists a :: a in c.addresses && a.ip == ip
  }

  /** A router's config gives its interface on a link the address the plan has for it. */
  lemma ConfiguresItsEnd(state: BuilderState, scenario: Scenario, i: int, n: BuilderNode)
    requires DistinctLinkIds(state.links) && InfoAt(state.links, i, n.id).Some?
    ensures Configures(ConfigOf(state, scenario, n), AddressOn(state.links, i, n.id))
  {
    hide LinksOfNode, Subnets, ASNumbers, Routers, Neighbors, Routes, AllRouterLinks, Loopbacks, InfoAt, NosKindOf;
    var li := InfoAt(state.links, i, n.id).value;
    var infos := SeenFrom(n.id, state.links);
    NodeSeesItsLinks(state.links, n.id, li);
    var k :| 0 <= k < |infos| && infos[k] == li;
    assert Addresses(infos)[k] in ConfigOf(state, scenario, n).addresses;
  }

  /** Over every link between two BGP routers, each side names the address and the AS number the
      other side's config gives itself, and nothing else at that address. */
  lemma BothSidesPeer(state: BuilderState, i: nat, n: BuilderNode, p: BuilderNode)
    requires DistinctNodeIds(state.nodes) && DistinctLinkIds(state.links) && i < |state.links|
    requires n in state.nodes && IsRouter(n) && UsesBgp(NosKindOf(n), Ebgp)
    requires p in state.nodes && IsRouter(p) && UsesBgp(NosKindOf(p), Ebgp)
    requires Joins(state.links[i], n.id, p.id)
    ensures var cn, cp := ConfigOf(state, Ebgp, n), ConfigOf(state, Ebgp, p);
            && cn.localAS.Some? && cp.localAS.Some? && cn.localAS != cp.localAS
            && Configures(cn, AddressOn(state.links, i, n.id)) && Configures(cp, AddressOn(state.links, i, p.id))
            && Neighbor(AddressOn(state.links, i, p.id), cp.localAS.value) in cn.neighbors
            && Neighbor(AddressOn(state.links, i, n.id), cn.localAS.value) in cp.neighbors
            && (forall nb | nb in cn.neighbors && nb.address == AddressOn(state.links, i, p.id) ::
                  nb.asNumber == cp.localAS.value)
  {
    hide ConfigOf, IsRouter, NosKindOf, ASOf, InfoAt;
    NeighborsExact(state, n, Neighbor(AddressOn(state.links, i, p.id), ASOf(state, p)));
    NeighborsExact(state, p, Neighbor(AddressOn(state.links, i, n.id), ASOf(state, n)));
    assert PeeringOver(state, n, Neighbor(AddressOn(state.links, i, p.id), ASOf(state, p)), i, p);
    assert PeeringOver(state, p, Neighbor(AddressOn(state.links, i, n.id), ASOf(state, n)), i, n);
    ASOfRouter(state, n);
    EndsAgree(state.links, i, n.id, p.id);
    ConfiguresItsEnd(state, Ebgp, i, n);
    ConfiguresItsEnd(state, Ebgp, i, p);
    forall nb | nb in ConfigOf(state, Ebgp, n).neighbors && nb.address == AddressOn(state.links, i, p.id)
      ensures nb.asNumber == ASOf(state, p)
    {
      NeighborsExact(state, n, nb);
      var j, q :| PeeringOver(state, n, nb, j, q);
      EndsAgree(state.links, i, n.id, p.id);
      EndsAgree(state.links, j, n.id, q.id);
      InterfaceAddressesDistinct(state.links, i, p.id, j, q.id);
    }
  }

  // ----- Static routes -----

  lemma {:induction false} RouteViaMember(li: NodeLinkInfo, peerLinks: seq<NodeLinkInfo>, r: Route)
    ensures r in RoutesVia(li, peerLinks)
       <==> exists pl :: pl in peerLinks && pl.network != li.network && r == Route(pl.network, li.remoteIP)
  {
    if peerLinks != [] {
      RouteViaMember(li, peerLinks[1..], r);
      assert peerLinks == [peerLinks[0]] + peerLinks[1..];
    }
  }

  lemma {:induction false} RouteMember(infos: seq<NodeLinkInfo>, all: map<string, seq<NodeLinkInfo>>, r: Route)
    ensures r in Routes(infos, all)
       <==> exists li :: li in infos && r in RoutesVia(li, PeerLinks(all, li.peerId))
  {
    hide RoutesVia, PeerLinks;
    if infos != [] {
      RouteMember(infos[1..], all, r);
      assert infos == [infos[0]] + infos[1..];
    }
  }

  lemma PeerLinksAreSeen(state: BuilderState, id: string)
    ensures PeerLinks(AllRouterLinks(Routers(state.nodes), state.links), id)
         == if exists p :: p in state.nodes && IsRouter(p) && p.id == id then SeenFrom(id, state.links) else []
  {
    hide LinksOfNode, Subnets, IsRouter;
  }

  /** The route leads over link i to router p and on to its other link j. */
  predicate RouteOver(state: BuilderState, id: string, r: Route, i: int, j: int, p: BuilderNode) {
    && InfoAt(state.links, i, id).Some? && InfoAt(state.links, i, id).value.peerId == p.id
    && p in state.nodes && IsRouter(p)
    && 0 <= j < |state.links| && j != i && Touches(state.links[j], p.id)
    && r == Route(Network(j + 1), InfoAt(state.links, i, id).value.remoteIP)
  }

  lemma InfoNetwork(links: seq<BuilderLink>, i: int, id: string)
    requires 0 <= i < |links|
    ensures InfoAt(links, i, id).Some? <==> Touches(links[i], id)
    ensures InfoAt(links, i, id).Some? ==> InfoAt(links, i, id).value.network == Network(i + 1)
  {
    hide Network;
  }

  /** The routes a link gives: those of its router peer's other links. */
  lemma RoutesOverLink(state: BuilderState, id: string, i: int, li: NodeLinkInfo, r: Route)
    requires DistinctLinkIds(state.links) && InfoAt(state.links, i, id) == Some(li)
    ensures r in RoutesVia(li, PeerLinks(AllRouterLinks(Routers(state.nodes), state.links), li.peerId))
       <==> exists j, p :: RouteOver(state, id, r, i, j, p)
  {
    hide InfoAt, IsRouter, Routers, AllRouterLinks, PeerLinks, RoutesVia, LinksOfNode, Subnets, Network, Touches;
    var links := state.links;
    var peerLinks := PeerLinks(AllRouterLinks(Routers(state.nodes), links), li.peerId);
    RouteViaMember(li, peerLinks, r);
    PeerLinksAreSeen(state, li.peerId);
    InfoInRange(links, i, id);
    InfoNetwork(links, i, id);
    if r in RoutesVia(li, peerLinks) {
      var pl :| pl in peerLinks && pl.network != li.network && r == Route(pl.network, li.remoteIP);
      var p :| p in state.nodes && IsRouter(p) && p.id == li.peerId;
      NodeSeesItsLinks(links, p.id, pl);
      var j :| InfoAt(links, j, p.id) == Some(pl);
      InfoInRange(links, j, p.id);
      InfoNetwork(links, j, p.id);
      assert RouteOver(state, id, r, i, j, p);
    }
    if j, p :| RouteOver(state, id, r, i, j, p) {
      InfoNetwork(links, j, p.id);
      var pl := InfoAt(links, j, p.id).value;
      NodeSeesItsLinks(links, p.id, pl);
      NetworkDiffers(i, j);
      assert pl in peerLinks;
    }
  }

  lemma NetworkDiffers(i: nat, j: nat)
    requires i != j
    ensures Network(i + 1) != Network(j + 1)
  {
    hide Network;
    AddressesDistinct(i + 1, Source, j + 1, Source);
  }

  /** A router's static routes are exactly these: for each of its links and each router at the other
      end, one to every other network of that router. */
  lemma RoutesExact(state: BuilderState, scenario: Scenario, n: BuilderNode, r: Route)
    requires DistinctLinkIds(state.links) && UsesStatic(NosKindOf(n), scenario)
    ensures r in ConfigOf(state, scenario, n).routes <==> exists i, j, p :: RouteOver(state, n.id, r, i, j, p)
  {
    hide InfoAt, IsRouter, Routers, AllRouterLinks, PeerLinks, RoutesVia, LinksOfNode, Subnets, Network, Touches,
         RouteOver, Routes, ASNumbers, Loopbacks, NosKindOf, Neighbors;
    var links := state.links;
    var all := AllRouterLinks(Routers(state.nodes), links);
    var infos := SeenFrom(n.id, links);
    RouteMember(infos, all, r);
    if r in Routes(infos, all) {
      var li :| li in infos && r in RoutesVia(li, PeerLinks(all, li.peerId));
      NodeSeesItsLinks(links, n.id, li);
      var i :| InfoAt(links, i, n.id) == Some(li);
      RoutesOverLink(state, n.id, i, li, r);
    }
    if i, j, p :| RouteOver(state, n.id, r, i, j, p) {
      RouteNeedsInfo(state, n.id, r, i, j, p);
      var li := InfoAt(links, i, n.id).value;
      RoutesOverLink(state, n.id, i, li, r);
      NodeSeesItsLinks(links, n.id, li);
    }
  }

  lemma RouteNeedsInfo(state: BuilderState, id: string, r: Route, i: int, j: int, p: BuilderNode)
    requires RouteOver(state, id, r, i, j, p)
    ensures InfoAt(state.links, i, id).Some?
  {
  }

  predicate NoSelfLinks(links: seq<BuilderLink>) {
    forall i | 0 <= i < |links| :: links[i].sourceNodeId != links[i].targetNodeId
  }

  /** Router p is the other end of link i, and link j is another of its links. */
  predicate TwoHops(state: BuilderState, id: string, r: Route, i: int, j: int, p: BuilderNode) {
    && 0 <= i < |state.links| && 0 <= j < |state.links| && i != j
    && p in state.nodes && IsRouter(p)
    && Joins(state.links[i], id, p.id) && Touches(state.links[j], p.id)
    && r == Route(Network(j + 1), AddressOn(state.links, i, p.id))
  }

  /** Without self-links every gateway is the address of an adjacent router on the shared link, that
      router is in the destination network, and every other network of every adjacent router is routed. */
  lemma RoutesCorrect(state: BuilderState, scenario: Scenario, n: BuilderNode, r: Route)
    requires DistinctLinkIds(state.links) && NoSelfLinks(state.links) && UsesStatic(NosKindOf(n), scenario)
    ensures r in ConfigOf(state, scenario, n).routes <==> exists i, j, p :: TwoHops(state, n.id, r, i, j, p)
  {
    hide ConfigOf, NosKindOf, IsRouter;
    RoutesExact(state, scenario, n, r);
    forall i, j, p
      ensures RouteOver(state, n.id, r, i, j, p) <==> TwoHops(state, n.id, r, i, j, p)
    {
      HopsAgree(state, n.id, r, i, j, p);
    }
  }

  lemma HopsAgree(state: BuilderState, id: string, r: Route, i: int, j: int, p: BuilderNode)
    requires NoSelfLinks(state.links)
    ensures RouteOver(state, id, r, i, j, p) <==> TwoHops(state, id, r, i, j, p)
  {
    hide IsRouter, Network, SubnetOf;
    if 0 <= i < |state.links| {
      InfoNetwork(state.links, i, id);
      if Joins(state.links[i], id, p.id) {
        EndsAgree(state.links, i, id, p.id);
      }
    }
  }

  // ----- No route twice -----

  predicate NoRepeats<T(==)>(s: seq<T>) {
    forall a, b | 0 <= a < b < |s| :: s[a] != s[b]
  }

  lemma NoRepeatsBoth<T>(s: seq<T>, t: seq<T>)
    requires NoRepeats(s) && NoRepeats(t) && forall x | x in s :: x !in t
    ensures NoRepeats(s + t)
  {
    forall a, b | 0 <= a < b < |s + t|
      ensures (s + t)[a] != (s + t)[b]
    {
      if a < |s| <= b {
        assert s[a] in s && t[b - |s|] in t;
      }
    }
  }

  predicate InfosDiffer(x: NodeLinkInfo, y: NodeLinkInfo) {
    x.network != y.network && x.localIP != y.localIP && x.remoteIP != y.remoteIP
  }

  /** Pairwise different networks, near ends and far ends. */
  predicate Apart(infos: seq<NodeLinkInfo>) {
    forall a, b | 0 <= a < b < |infos| :: InfosDiffer(infos[a], infos[b])
  }

  /** The info is that of a link from position `from` on. */
  predicate SeenLater(links: seq<BuilderLink>, from: nat, id: string, info: NodeLinkInfo) {
    exists i :: from <= i < |links| && InfoAt(links, i, id) == Some(info)
  }

  lemma InfosApart(links: seq<BuilderLink>, i: nat, j: nat, id: string)
    requires i != j && InfoAt(links, i, id).Some? && InfoAt(links, j, id).Some?
    ensures InfosDiffer(InfoAt(links, i, id).value, InfoAt(links, j, id).value)
  {
    InterfaceAddressesDistinct(links, i, id, j, id);
    hide InfoAt, Network, AddressAt;
    InfoInRange(links, i, id);
    InfoInRange(links, j, id);
    InfoNetwork(links, i, id);
    InfoNetwork(links, j, id);
    NetworkDiffers(i, j);
    FarAddress(links, i, id);
    FarAddress(links, j, id);
    AddressesDistinct(i + 1, FarSide(links[i], id), j + 1, FarSide(links[j], id));
  }

  function FarSide(link: BuilderLink, id: string): Side {
    if link.sourceNodeId == id then Target else Source
  }

  lemma FarAddress(links: seq<BuilderLink>, i: nat, id: string)
    requires i < |links| && InfoAt(links, i, id).Some?
    ensures InfoAt(links, i, id).value.remoteIP == AddressAt(i + 1, FarSide(links[i], id))
  {
    hide SubnetOf;
  }

  lemma {:induction false} SeenApart(links: seq<BuilderLink>, from: nat, id: string)
    requires DistinctLinkIds(links) && from <= |links|
    ensures var infos := LinksOfNode(id, links[from..], Subnets(links));
      Apart(infos) && forall info | info in infos :: SeenLater(links, from, id, info)
    decreases |links| - from
  {
    hide LinksOfNode, Subnets, SubnetOf, InfoAt;
    if from == |links| {
      assert LinksOfNode(id, links[from..], Subnets(links)) == [] by { NoLinksSeen(id, links[from..], Subnets(links)); }
    } else {
      SeenApart(links, from + 1, id);
      var rest := LinksOfNode(id, links[from + 1..], Subnets(links));
      LinksFrom(links, from, id);
      forall info | info in rest
        ensures SeenLater(links, from, id, info)
        ensures InfoAt(links, from, id).Some? ==> InfosDiffer(InfoAt(links, from, id).value, info)
      {
        var i :| from + 1 <= i < |links| && InfoAt(links, i, id) == Some(info);
        if InfoAt(links, from, id).Some? {
          InfosApart(links, from, i, id);
        }
      }
    }
  }

  lemma NoLinksSeen(id: string, links: seq<BuilderLink>, subnets: map<string, Subnet>)
    requires links == []
    ensures LinksOfNode(id, links, subnets) == []
  {
  }

  lemma LinksFrom(links: seq<BuilderLink>, from: nat, id: string)
    requires DistinctLinkIds(links) && from < |links|
    ensures LinksOfNode(id, links[from..], Subnets(links))
         == (if InfoAt(links, from, id).Some? then [InfoAt(links, from, id).value] else [])
            + LinksOfNode(id, links[from + 1..], Subnets(links))
  {
    hide LinksOfNode, Subnets, SubnetOf;
    LinksOfNodeFrom(id, links, from, Subnets(links));
    SubnetOfLink(links, from);
  }

  lemma {:induction false} RoutesViaOnce(li: NodeLinkInfo, peerLinks: seq<NodeLinkInfo>)
    requires Apart(peerLinks)
    ensures NoRepeats(RoutesVia(li, peerLinks))
  {
    if peerLinks != [] {
      var rest := peerLinks[1..];
      assert forall k | 0 <= k < |rest| :: rest[k] == peerLinks[k + 1];
      RoutesViaOnce(li, rest);
      var first := if peerLinks[0].network != li.network then [Route(peerLinks[0].network, li.remoteIP)] else [];
      forall r | r in first
        ensures r !in RoutesVia(li, rest)
      {
        RouteViaMember(li, rest, r);
      }
      NoRepeatsBoth(first, RoutesVia(li, rest));
    }
  }

  lemma {:induction false} RoutesListedOnce(infos: seq<NodeLinkInfo>, all: map<string, seq<NodeLinkInfo>>)
    requires Apart(infos) && forall id | id in all :: Apart(all[id])
    ensures NoRepeats(Routes(infos, all))
  {
    hide RoutesVia;
    if infos != [] {
      var li, rest := infos[0], infos[1..];
      var peerLinks := PeerLinks(all, li.peerId);
      assert forall k | 0 <= k < |rest| :: rest[k] == infos[k + 1];
      RoutesListedOnce(rest, all);
      RoutesViaOnce(li, peerLinks);
      forall r | r in RoutesVia(li, peerLinks)
        ensures r !in Routes(rest, all)
      {
        ViaOthers(li, peerLinks, rest, all, r);
      }
      NoRepeatsBoth(RoutesVia(li, peerLinks), Routes(rest, all));
    }
  }

  lemma ViaOthers(li: NodeLinkInfo, peerLinks: seq<NodeLinkInfo>, rest: seq<NodeLinkInfo>,
                  all: map<string, seq<NodeLinkInfo>>, r: Route)
    requires r in RoutesVia(li, peerLinks) && forall other | other in rest :: other.remoteIP != li.remoteIP
    ensures r !in Routes(rest, all)
  {
    hide RoutesVia, Routes, PeerLinks;
    RouteViaMember(li, peerLinks, r);
    RouteMember(rest, all, r);
    forall other | other in rest
      ensures r !in RoutesVia(other, PeerLinks(all, other.peerId))
    {
      RouteViaMember(other, PeerLinks(all, other.peerId), r);
    }
  }

  /** No static route is listed twice, so RoutesExact counts them exactly. */
  lemma RoutesOnce(state: BuilderState, scenario: Scenario, n: BuilderNode)
    requires DistinctLinkIds(state.links)
    ensures NoRepeats(ConfigOf(state, scenario, n).routes)
  {
    hide LinksOfNode, Subnets, Apart, Routes, NosKindOf, ASNumbers, Loopbacks, Neighbors, IsRouter;
    var links := state.links;
    assert links[0..] == links;
    SeenApart(links, 0, n.id);
    var all := AllRouterLinks(Routers(state.nodes), links);
    forall id | id in all
      ensures Apart(all[id])
    {
      SeenApart(links, 0, id);
    }
    RoutesListedOnce(SeenFrom(n.id, links), all);
  }

  lemma {:induction false} NeighborsListedOnce(infos: seq<NodeLinkInfo>, localAS: nat, asMap: map<string, nat>)
    requires Apart(infos)
    ensures NoRepeats(Neighbors(infos, localAS, asMap))
  {
    if infos != [] {
      var li, rest := infos[0], infos[1..];
      assert forall k | 0 <= k < |rest| :: rest[k] == infos[k + 1];
      NeighborsListedOnce(rest, localAS, asMap);
      var first := if Peers(li, localAS, asMap) then [Neighbor(li.remoteIP, asMap[li.peerId])] else [];
      forall nb | nb in first
        ensures nb !in Neighbors(rest, localAS, asMap)
      {
        NeighborMember(rest, localAS, asMap, nb);
      }
      NoRepeatsBoth(first, Neighbors(rest, localAS, asMap));
    }
  }

  /** No neighbour is listed twice. */
  lemma NeighborsOnce(state: BuilderState, scenario: Scenario, n: BuilderNode)
    requires DistinctLinkIds(state.links)
    ensures NoRepeats(ConfigOf(state, scenario, n).neighbors)
  {
    hide LinksOfNode, Subnets, Apart, Routes, NosKindOf, ASNumbers, Loopbacks, Neighbors, IsRouter, AllRouterLinks;
    assert state.links[0..] == state.links;
    SeenApart(state.links, 0, n.id);
    var asMap := ScenarioASNumbers(scenario, Routers(state.nodes));
    NeighborsListedOnce(SeenFrom(n.id, state.links), LocalAS(asMap, n.id), asMap);
  }

  // ----- Self-links -----

  /** The address is that of some node's interface. */
  predicate Owned(links: seq<BuilderLink>, ip: string, k: int, m: string) {
    InfoAt(links, k, m).Some? && InfoAt(links, k, m).value.localIP == ip
  }

  predicate SelfLinked(links: seq<BuilderLink>, id: string, i: int, j: int) {
    && 0 <= i < |links| && links[i].sourceNodeId == id == links[i].targetNodeId
    && 0 <= j < |links| && i != j && Touches(links[j], id)
  }

  /** The far end of a self-link is no node's interface address: only the source end is shown. */
  lemma FarEndUnowned(links: seq<BuilderLink>, i: nat, k: int, m: string)
    requires i < |links| && links[i].sourceNodeId == links[i].targetNodeId
    ensures !Owned(links, SubnetOf(i + 1).tgtIP, k, m)
  {
    hide SubnetOf;
    if Owned(links, SubnetOf(i + 1).tgtIP, k, m) {
      var s := if links[k].sourceNodeId == m then Source else Target;
      AddressesDistinct(i + 1, Target, k + 1, s);
    }
  }

  lemma SelfLinkRoute(state: BuilderState, n: BuilderNode, i: int, j: int)
    requires i >= 0 && j >= 0 && n in state.nodes && IsRouter(n) && SelfLinked(state.links, n.id, i, j)
    ensures RouteOver(state, n.id, Route(Network(j + 1), SubnetOf(i + 1).tgtIP), i, j, n)
  {
    hide Network, IsRouter;
  }

  lemma GatewayOwner(state: BuilderState, id: string, r: Route, i: int, j: int, p: BuilderNode)
    requires RouteOver(state, id, r, i, j, p)
    ensures Owned(state.links, r.gateway, i, p.id) || SelfLinked(state.links, id, i, j)
  {
    hide Network, SubnetOf, IsRouter;
    InfoInRange(state.links, i, id);
    if p.id != id {
      EndsAgree(state.links, i, id, p.id);
    }
  }

  /** Every gateway of a router is some interface's address exactly when the router has no
      self-link beside another link. */
  lemma GatewaysOwnedIff(state: BuilderState, scenario: Scenario, n: BuilderNode)
    requires DistinctLinkIds(state.links) && n in state.nodes && IsRouter(n) && UsesStatic(NosKindOf(n), scenario)
    ensures (forall r | r in ConfigOf(state, scenario, n).routes :: exists k, m :: Owned(state.links, r.gateway, k, m))
       <==> !(exists i, j :: SelfLinked(state.links, n.id, i, j))
  {
    hide ConfigOf, NosKindOf, IsRouter, RouteOver, Owned, SelfLinked;
    if i, j :| SelfLinked(state.links, n.id, i, j) {
      SelfLinkRange(state.links, n.id, i, j);
      var r := Route(Network(j + 1), SubnetOf(i + 1).tgtIP);
      SelfLinkRoute(state, n, i, j);
      RoutesExact(state, scenario, n, r);
      forall k, m
        ensures !Owned(state.links, r.gateway, k, m)
      {
        FarEndUnowned(state.links, i, k, m);
      }
      assert r in ConfigOf(state, scenario, n).routes;
    } else {
      forall r | r in ConfigOf(state, scenario, n).routes
        ensures exists k, m :: Owned(state.links, r.gateway, k, m)
      {
        RoutesExact(state, scenario, n, r);
        var i, j, p :| RouteOver(state, n.id, r, i, j, p);
        GatewayOwner(state, n.id, r, i, j, p);
      }
    }
  }

  lemma SelfLinkRange(links: seq<BuilderLink>, id: string, i: int, j: int)
    requires SelfLinked(links, id, i, j)
    ensures 0 <= i < |links| && 0 <= j < |links| && links[i].sourceNodeId == links[i].targetNodeId
  {
  }

  /** An OpenWrt router with a self-link and a link to a host. */
  function SelfLinkedState(): BuilderState {
    BuilderState("", [SELF_LINKED, BuilderNode("h", "h", "linux", "alpine", [])],
                 [BuilderLink("l1", "r", "eth1", "r", "eth2"), BuilderLink("l2", "r", "eth3", "h", "eth1")])
  }

  const SELF_LINKED := BuilderNode("r", "r", "openwrt", "openwrt", [])

  lemma FirstNetworks()
    ensures Network(1) == "10.1.1" && Network(2) == "10.1.2" && SubnetOf(1).tgtIP == "10.1.1.2"
  {
    assert Decimal(1) == "1" && Decimal(2) == "2";
  }

  /** Its config routes the host's network via the far end of the self-link, an address no
      interface has. */
  lemma UnownedGateway(scenario: Scenario)
    ensures var r := Route("10.1.2", "10.1.1.2");
      && r in ConfigOf(SelfLinkedState(), scenario, SELF_LINKED).routes
      && forall k, m :: !Owned(SelfLinkedState().links, r.gateway, k, m)
  {
    hide ConfigOf, Owned, RouteOver, Routers, Network, SubnetOf;
    var state := SelfLinkedState();
    FirstNetworks();
    var r := Route(Network(2), SubnetOf(1).tgtIP);
    assert SelfLinked(state.links, "r", 0, 1);
    SelfLinkRoute(state, SELF_LINKED, 0, 1);
    RoutesExact(state, scenario, SELF_LINKED, r);
    forall k, m
      ensures !Owned(state.links, r.gateway, k, m)
    {
      FarEndUnowned(state.links, 0, k, m);
    }
  }

  // ----- Hosts -----

  predicate FirstLink(links: seq<BuilderLink>, i: int, id: string) {
    0 <= i < |links| && Touches(links[i], id) && forall k | 0 <= k < i :: !Touches(links[k], id)
  }

  lemma {:induction false} FirstSeenFrom(links: seq<BuilderLink>, from: nat, i: nat, id: string)
    requires DistinctLinkIds(links) && FirstLink(links, i, id) && from <= i
    ensures LinksOfNode(id, links[from..], Subnets(links)) != []
    ensures InfoAt(links, i, id) == Some(LinksOfNode(id, links[from..], Subnets(links))[0])
    decreases i - from
  {
    hide LinksOfNode, Subnets, SubnetOf;
    LinksOfNodeFrom(id, links, from, Subnets(links));
    SubnetOfLink(links, from);
    if from < i {
      FirstSeenFrom(links, from + 1, i, id);
    }
  }

  /** A host routes to the other networks of the router at the other end of its first link, and nowhere else. */
  lemma HostRoutesExact(state: BuilderState, id: string, i: nat, r: Route)
    requires DistinctLinkIds(state.links) && FirstLink(state.links, i, id)
    ensures r in HostConfigIn(state, id).routes <==> exists j, p :: RouteOver(state, id, r, i, j, p)
  {
    hide LinksOfNode, Subnets, InfoAt, RouteOver, AllRouterLinks, Routers, RoutesVia, PeerLinks;
    assert state.links[0..] == state.links;
    FirstSeenFrom(state.links, 0, i, id);
    RoutesOverLink(state, id, i, SeenFrom(id, state.links)[0], r);
  }

  /** Every default gateway of a host without self-links is the address at the other end of one of its links. */
  lemma HostDefaults(state: BuilderState, id: string, gateway: string)
    requires DistinctLinkIds(state.links) && NoSelfLinks(state.links)
    ensures gateway in HostConfigIn(state, id).defaults
       <==> exists i, p :: HostEnd(state.links, id, gateway, i, p)
  {
    hide LinksOfNode, Subnets, InfoAt, AllRouterLinks, Routers, AddressOn;
    var infos := SeenFrom(id, state.links);
    if gateway in HostConfigIn(state, id).defaults {
      var k :| 0 <= k < |infos| && infos[k].remoteIP == gateway;
      NodeSeesItsLinks(state.links, id, infos[k]);
      var i :| InfoAt(state.links, i, id) == Some(infos[k]);
      InfoInRange(state.links, i, id);
      InfoNetwork(state.links, i, id);
      var p := if state.links[i].sourceNodeId == id then state.links[i].targetNodeId else state.links[i].sourceNodeId;
      EndsAgree(state.links, i, id, p);
      assert HostEnd(state.links, id, gateway, i, p);
    }
    if i, p :| HostEnd(state.links, id, gateway, i, p) {
      EndsAgree(state.links, i, id, p);
      var li := InfoAt(state.links, i, id).value;
      NodeSeesItsLinks(state.links, id, li);
      var k :| 0 <= k < |infos| && infos[k] == li;
      assert Gateways(infos)[k] == gateway;
    }
  }

  predicate HostEnd(links: seq<BuilderLink>, id: string, gateway: string, i: int, p: string) {
    0 <= i < |links| && Joins(links[i], id, p) && gateway == AddressOn(links, i, p)
  }
}
