/** Networks, loopbacks and AS numbers for a scenario
    (frontend/app/src/lib/config-generator.ts). */
module AddressPlan {
  import opened Text
  import opened TopologyPrinter

  /** A number as JavaScript prints it. */
  function Decimal(n: nat): (r: string)
    ensures |r| >= 1 && (|r| == 1 <==> n < 10)
  {
    if n < 10 then [Digit(n)] else Decimal(n / 10) + [Digit(n % 10)]
  }

  function Digit(d: nat): char
    requires d < 10
  {
    "0123456789"[d]
  }

  datatype Subnet = Subnet(network: string, srcIP: string, tgtIP: string)

  function SecondOctet(idx: nat): nat { idx / 255 + 1 }

  function ThirdOctet(idx: nat): nat { idx % 255 }

  /** The network of the idx-th link, counted from 1. */
  function Network(idx: nat): string {
    "10." + Decimal(SecondOctet(idx)) + "." + Decimal(ThirdOctet(idx))
  }

  function SubnetOf(idx: nat): Subnet {
    Subnet(Network(idx), Network(idx) + ".1", Network(idx) + ".2")
  }

  function Subnets(links: seq<BuilderLink>): map<string, Subnet> {
    if links == [] then map[]
    else Subnets(links[..|links| - 1])[links[|links| - 1].id := SubnetOf(|links|)]
  }

  function Loopback(i: nat): string {
    var d := Decimal(i + 1);
    d + "." + d + "." + d + "." + d
  }

  function Loopbacks(routers: seq<BuilderNode>): map<string, string> {
    if routers == [] then map[]
    else Loopbacks(routers[..|routers| - 1])[routers[|routers| - 1].id := Loopback(|routers| - 1)]
  }

  function ASNumbers(routers: seq<BuilderNode>): map<string, nat> {
    if routers == [] then map[]
    else ASNumbers(routers[..|routers| - 1])[routers[|routers| - 1].id := 65001 + |routers| - 1]
  }

  method AllocateSubnets(links: seq<BuilderLink>) returns (allocations: map<string, Subnet>)
    ensures allocations == Subnets(links)
  {
    hide Decimal;
    allocations := map[];
    var subnetIdx := 0;
    for i := 0 to |links|
      invariant subnetIdx == i && allocations == Subnets(links[..i])
    {
      assert links[..i + 1][..i] == links[..i];
      subnetIdx := subnetIdx + 1;
      var second := subnetIdx / 255 + 1;
      var third := subnetIdx % 255;
      var network := "10." + Decimal(second) + "." + Decimal(third);
      allocations := allocations[links[i].id := Subnet(network, network + ".1", network + ".2")];
    }
    assert links[..|links|] == links;
  }

  method AllocateLoopbacks(routers: seq<BuilderNode>) returns (allocs: map<string, string>)
    ensures allocs == Loopbacks(routers)
  {
    hide Decimal;
    allocs := map[];
    for i := 0 to |routers|
      invariant allocs == Loopbacks(routers[..i])
    {
      assert routers[..i + 1][..i] == routers[..i];
      var d := Decimal(i + 1);
      allocs := allocs[routers[i].id := d + "." + d + "." + d + "." + d];
    }
    assert routers[..|routers|] == routers;
  }

  method AllocateASNumbers(routers: seq<BuilderNode>) returns (asMap: map<string, nat>)
    ensures asMap == ASNumbers(routers)
  {
    asMap := map[];
    for i := 0 to |routers|
      invariant asMap == ASNumbers(routers[..i])
    {
      assert routers[..i + 1][..i] == routers[..i];
      asMap := asMap[routers[i].id := 65001 + i];
    }
    assert routers[..|routers|] == routers;
  }

  // ----- Decimal texts -----

  lemma {:induction false} DecimalHasNoDot(n: nat)
    ensures '.' !in Decimal(n)
  {
    if n >= 10 {
      DecimalHasNoDot(n / 10);
    }
  }

  lemma {:induction false} DecimalInjective(m: nat, n: nat)
    requires Decimal(m) == Decimal(n)
    ensures m == n
  {
    var d, e := Decimal(m), Decimal(n);
    assert d[|d| - 1] == Digit(m % 10) && e[|e| - 1] == Digit(n % 10);
    if m >= 10 {
      assert Decimal(m / 10) == d[..|d| - 1] == e[..|e| - 1] == Decimal(n / 10);
      DecimalInjective(m / 10, n / 10);
    }
  }

  /** Dotted texts agree part by part. */
  lemma DottedInjective(a: string, b: string, x: string, y: string)
    requires '.' !in a && '.' !in x && a + "." + b == x + "." + y
    ensures a == x && b == y
  {
    SplitOff(a, '.', b);
    SplitOff(x, '.', y);
    assert ([a] + Split(b, '.'))[0] == a && ([x] + Split(y, '.'))[0] == x;
    assert a + "." + b == a + ['.'] + b && x + "." + y == x + ['.'] + y;
    assert (a + "." + b)[|a| + 1..] == b && (x + "." + y)[|x| + 1..] == y;
  }

  // ----- The plan -----

  lemma NetworkInjective(i: nat, j: nat)
    requires Network(i) == Network(j)
    ensures i == j
  {
    hide Decimal;
    var a, b := Decimal(SecondOctet(i)), Decimal(ThirdOctet(i));
    var x, y := Decimal(SecondOctet(j)), Decimal(ThirdOctet(j));
    DecimalHasNoDot(SecondOctet(i));
    DecimalHasNoDot(SecondOctet(j));
    assert Network(i)[3..] == a + "." + b && Network(j)[3..] == x + "." + y;
    DottedInjective(a, b, x, y);
    DecimalInjective(SecondOctet(i), SecondOctet(j));
    DecimalInjective(ThirdOctet(i), ThirdOctet(j));
  }

  predicate DistinctLinkIds(links: seq<BuilderLink>) {
    forall i, j | 0 <= i < j < |links| :: links[i].id != links[j].id
  }

  predicate DistinctNodeIds(nodes: seq<BuilderNode>) {
    forall i, j | 0 <= i < j < |nodes| :: nodes[i].id != nodes[j].id
  }

  /** Of several links with one id the last one's network counts. */
  lemma {:induction false} LastLinkCounts(links: seq<BuilderLink>, i: nat)
    requires i < |links| && forall j | i < j < |links| :: links[j].id != links[i].id
    ensures links[i].id in Subnets(links) && Subnets(links)[links[i].id] == SubnetOf(i + 1)
    decreases |links|
  {
    hide SubnetOf;
    var init := links[..|links| - 1];
    if i < |init| {
      LastLinkCounts(init, i);
      assert init[i] == links[i];
    }
  }

  lemma SubnetOfLink(links: seq<BuilderLink>, i: nat)
    requires DistinctLinkIds(links) && i < |links|
    ensures links[i].id in Subnets(links) && Subnets(links)[links[i].id] == SubnetOf(i + 1)
  {
    hide Subnets, SubnetOf;
    LastLinkCounts(links, i);
  }

  lemma {:induction false} OnlyLinksHaveSubnets(links: seq<BuilderLink>, id: string)
    ensures id in Subnets(links) <==> exists i :: 0 <= i < |links| && links[i].id == id
    decreases |links|
  {
    hide SubnetOf;
    if links != [] {
      var init := links[..|links| - 1];
      OnlyLinksHaveSubnets(init, id);
      assert forall i | 0 <= i < |init| :: init[i] == links[i];
    }
  }

  /** The two ends of a link. */
  datatype Side = Source | Target

  function AddressAt(idx: nat, side: Side): string {
    if side == Source then SubnetOf(idx).srcIP else SubnetOf(idx).tgtIP
  }

  /** No two link ends share an address, and no two links a network. */
  lemma AddressesDistinct(i: nat, s: Side, j: nat, t: Side)
    ensures AddressAt(i, s) == AddressAt(j, t) <==> i == j && s == t
    ensures Network(i) == Network(j) <==> i == j
  {
    hide Network;
    var a, b := AddressAt(i, s), AddressAt(j, t);
    assert a[..|a| - 2] == Network(i) && b[..|b| - 2] == Network(j);
    assert a[|a| - 1] == (if s == Source then '1' else '2') && b[|b| - 1] == (if t == Source then '1' else '2');
    if Network(i) == Network(j) {
      NetworkInjective(i, j);
    }
  }

  predicate ValidOctet(n: nat) { n <= 255 }

  /** All four octets of a loopback are the router's position counted from 1. */
  predicate ValidLoopback(i: nat) { ValidOctet(i + 1) }

  /** Every octet of every network is valid exactly for up to 65024 links. */
  lemma OctetsValidIff(count: nat)
    ensures (forall i :: 1 <= i <= count ==> ValidOctet(SecondOctet(i)) && ValidOctet(ThirdOctet(i)))
       <==> count <= 65024
  {
    if count > 65024 {
      assert SecondOctet(65025) == 256;
      assert !ValidOctet(SecondOctet(65025));
    }
  }

  /** Loopback ids are pairwise distinct, and valid exactly for up to 255 routers. */
  lemma LoopbacksDistinct(i: nat, j: nat)
    requires Loopback(i) == Loopback(j)
    ensures i == j
  {
    hide Decimal;
    var d, e := Decimal(i + 1), Decimal(j + 1);
    DecimalHasNoDot(i + 1);
    DecimalHasNoDot(j + 1);
    assert Loopback(i) == d + "." + (d + "." + d + "." + d) && Loopback(j) == e + "." + (e + "." + e + "." + e);
    DottedInjective(d, d + "." + d + "." + d, e, e + "." + e + "." + e);
    DecimalInjective(i + 1, j + 1);
  }

  lemma LoopbacksValidIff(count: nat)
    ensures (forall i :: 0 <= i < count ==> ValidLoopback(i)) <==> count <= 255
  {
    if count > 255 {
      assert !ValidLoopback(255);
    }
  }

  /** Of several routers with one id the last one's numbers count. */
  lemma {:induction false} LastRouterCounts(routers: seq<BuilderNode>, i: nat)
    requires i < |routers| && forall j | i < j < |routers| :: routers[j].id != routers[i].id
    ensures routers[i].id in ASNumbers(routers) && ASNumbers(routers)[routers[i].id] == 65001 + i
    ensures routers[i].id in Loopbacks(routers) && Loopbacks(routers)[routers[i].id] == Loopback(i)
    decreases |routers|
  {
    hide Loopback;
    var init := routers[..|routers| - 1];
    if i < |init| {
      LastRouterCounts(init, i);
      assert init[i] == routers[i];
    }
  }

  lemma RouterNumbers(routers: seq<BuilderNode>, i: nat)
    requires DistinctNodeIds(routers) && i < |routers|
    ensures routers[i].id in ASNumbers(routers) && ASNumbers(routers)[routers[i].id] == 65001 + i
    ensures routers[i].id in Loopbacks(routers) && Loopbacks(routers)[routers[i].id] == Loopback(i)
  {
    hide ASNumbers, Loopbacks, Loopback;
    LastRouterCounts(routers, i);
  }

  lemma {:induction false} OnlyRoutersHaveNumbers(routers: seq<BuilderNode>, id: string)
    ensures id in ASNumbers(routers) <==> exists i :: 0 <= i < |routers| && routers[i].id == id
    decreases |routers|
  {
    if routers != [] {
      var init := routers[..|routers| - 1];
      OnlyRoutersHaveNumbers(init, id);
      assert forall i | 0 <= i < |init| :: init[i] == routers[i];
    }
  }

  /** Distinct routers have distinct AS numbers and distinct router ids. */
  lemma NumbersDistinct(routers: seq<BuilderNode>, i: nat, j: nat)
    requires DistinctNodeIds(routers) && i < |routers| && j < |routers| && i != j
    ensures routers[i].id in ASNumbers(routers) && routers[j].id in ASNumbers(routers)
    ensures ASNumbers(routers)[routers[i].id] != ASNumbers(routers)[routers[j].id]
    ensures routers[i].id in Loopbacks(routers) && routers[j].id in Loopbacks(routers)
    ensures Loopbacks(routers)[routers[i].id] != Loopbacks(routers)[routers[j].id]
  {
    hide Loopback;
    RouterNumbers(routers, i);
    RouterNumbers(routers, j);
    if Loopback(i) == Loopback(j) {
      LoopbacksDistinct(i, j);
    }
  }
}
