/** The port map of the cloud-lab service (worker/internal/terraform/service.go). */
module MotoPorts {

  const FIRST := 15000
  const END := 16000

  type Ports = map<string, int>

  /** The ports some lab holds. */
  function Held(ports: Ports): set<int> {
    set lab | lab in ports :: ports[lab]
  }

  lemma HeldWith(rest: Ports, ports: Ports, lab: string)
    requires lab in ports && rest == ports - {lab}
    ensures Held(ports) == Held(rest) + {ports[lab]}
  {
    forall p | p in Held(ports) ensures p in Held(rest) + {ports[lab]} {
      var l :| l in ports && ports[l] == p;
      assert l != lab ==> l in rest && rest[l] == p;
    }
    forall p | p in Held(rest) ensures p in Held(ports) {
      var l :| l in rest && rest[l] == p;
      assert l in ports && ports[l] == p;
    }
  }

  /** The least port from `from` on that no lab holds, or END. */
  function LeastFree(ports: Ports, from: int): (p: int)
    requires FIRST <= from <= END
    ensures from <= p <= END
    ensures forall q | from <= q < p :: q in Held(ports)
    ensures p < END ==> p !in Held(ports)
    decreases END - from
  {
    if from == END || from !in Held(ports) then from else LeastFree(ports, from + 1)
  }

  /** The new map and the port handed out. When no port is free nothing is recorded. */
  function AllocateStep(ports: Ports, lab: string): (Ports, int) {
    var p := LeastFree(ports, FIRST);
    if p < END then (ports[lab := p], p) else (ports, FIRST)
  }

  /** The port on record for a lab, or 0. */
  function Recorded(ports: Ports, lab: string): int {
    if lab in ports then ports[lab] else 0
  }

  class Service {
    var ports: Ports

    constructor ()
      ensures ports == map[]
    {
      ports := map[];
    }

    method AllocatePort(labID: string) returns (port: int)
      modifies this
      ensures (ports, port) == AllocateStep(old(ports), labID)
    {
      var used: set<int> := {};
      var todo := ports.Keys;
      while todo != {}
        invariant todo <= ports.Keys && ports == old(ports)
        invariant used == Held(ports - todo)
        decreases |todo|
      {
        var lab :| lab in todo;
        assert ports - todo == (ports - (todo - {lab})) - {lab};
        HeldWith(ports - todo, ports - (todo - {lab}), lab);
        used, todo := used + {ports[lab]}, todo - {lab};
      }
      assert ports - todo == ports && used == Held(ports);
      port := FIRST;
      while port < END
        invariant FIRST <= port <= END && ports == old(ports)
        invariant LeastFree(ports, FIRST) == LeastFree(ports, port)
      {
        if port !in used {
          ports := ports[labID := port];
          return;
        }
        port := port + 1;
      }
      port := FIRST;
    }

    method GetMotoPort(labID: string) returns (port: int)
      ensures port == Recorded(ports, labID)
    {
      port := if labID in ports then ports[labID] else 0;
    }

    /** Only a container that was really removed gives its port back. */
    method StopMoto(labID: string, removed: bool)
      modifies this
      ensures ports == if removed then old(ports) - {labID} else old(ports)
    {
      if removed {
        ports := ports - {labID};
      }
    }
  }

  // ----- Runs -----

  datatype Op = Allocate(lab: string) | Stop(lab: string, removed: bool)

  function Step(ports: Ports, op: Op): Ports {
    match op
    case Allocate(lab) => AllocateStep(ports, lab).0
    case Stop(lab, removed) => if removed then ports - {lab} else ports
  }

  function After(ops: seq<Op>): Ports {
    if ops == [] then map[] else Step(After(ops[..|ops| - 1]), ops[|ops| - 1])
  }

  /** Recorded ports lie in range and no two labs share one. */
  predicate Sound(ports: Ports) {
    && (forall lab | lab in ports :: 15000 <= ports[lab] < 16000)
    && (forall a, b | a in ports && b in ports && a != b :: ports[a] != ports[b])
  }

  lemma {:induction false} AlwaysSound(ops: seq<Op>)
    ensures Sound(After(ops))
  {
    if ops != [] {
      AlwaysSound(ops[..|ops| - 1]);
    }
  }

  /** Distinct ports for distinct labs: as many ports as labs. */
  lemma {:induction false} ValuesCount(ports: Ports)
    requires Sound(ports)
    ensures |Held(ports)| == |ports|
    decreases |ports|
  {
    if ports == map[] {
      assert Held(ports) == {};
    } else {
      var lab :| lab in ports;
      var rest := ports - {lab};
      HeldWith(rest, ports, lab);
      assert ports[lab] !in Held(rest);
      assert ports.Keys == rest.Keys + {lab};
      assert |ports.Keys| == |rest.Keys| + 1;
      ValuesCount(rest);
    }
  }

  function Range(lo: int, hi: int): (r: set<int>)
    requires lo <= hi
    ensures |r| == hi - lo && forall p :: p in r <==> lo <= p < hi
    decreases hi - lo
  {
    if lo == hi then {} else Range(lo, hi - 1) + {hi - 1}
  }

  lemma SubsetSize(a: set<int>, b: set<int>)
    requires a <= b
    ensures |a| <= |b| && (|a| == |b| ==> a == b)
  {
    var rest := b - a;
    assert b == a + rest;
    assert |b| == |a| + |rest|;
  }

  /** After any run at most 1000 labs hold ports, and the fallback, which records nothing and
      hands out a port some lab already holds, is taken exactly when 1000 of them do. */
  lemma FallbackIffFull(ops: seq<Op>, lab: string)
    ensures var ports := After(ops); var (after, port) := AllocateStep(ports, lab);
      && |ports| <= 1000
      && (|ports| == 1000 ==> after == ports && port == 15000 && port in Held(ports))
      && (|ports| < 1000 ==>
            && after == ports[lab := port] && 15000 <= port < 16000 && port !in Held(ports)
            && forall q | 15000 <= q < port :: q in Held(ports))
  {
    hide After, Held;
    AlwaysSound(ops);
    SearchFailsIffFull(After(ops));
  }

  lemma HeldInRange(ports: Ports)
    requires Sound(ports)
    ensures Held(ports) <= Range(FIRST, END)
  {
    hide Range;
    assert forall p | p in Held(ports) :: FIRST <= p < END;
  }

  lemma SearchFailsIffFull(ports: Ports)
    requires Sound(ports)
    ensures |ports| <= END - FIRST && (LeastFree(ports, FIRST) == END <==> |ports| == END - FIRST)
    ensures LeastFree(ports, FIRST) == END ==> FIRST in Held(ports)
  {
    hide LeastFree, Held, Sound, Range;
    var range, p := Range(FIRST, END), LeastFree(ports, FIRST);
    HeldInRange(ports);
    ValuesCount(ports);
    SubsetSize(Held(ports), range);
    if p == END {
      assert Held(ports) == range;
      assert FIRST in range;
    } else {
      assert p in range && p !in Held(ports);
    }
  }

  /** The port handed out is the one found on record later, except for the fallback: that one is
      found only if the lab held the first port already. */
  lemma RecordedIsHandedOut(ops: seq<Op>, lab: string)
    ensures var ports := After(ops); var (after, port) := AllocateStep(ports, lab);
      Recorded(after, lab) == port <==> |ports| < 1000 || (lab in ports && ports[lab] == 15000)
    ensures Recorded(After(ops), lab) == 0 <==> lab !in After(ops)
  {
    hide After;
    AlwaysSound(ops);
    FallbackIffFull(ops, lab);
  }

  // ----- A run that fills every port -----

  function LabName(i: nat): (r: string)
    ensures |r| == i
  {
    if i == 0 then "" else LabName(i - 1) + "a"
  }

  function Crowd(n: nat): (r: seq<Op>)
    ensures |r| == n
  {
    if n == 0 then [] else Crowd(n - 1) + [Allocate(LabName(n - 1))]
  }

  lemma FirstGap(ports: Ports, n: nat)
    requires n < END - FIRST && Held(ports) == Range(FIRST, FIRST + n)
    ensures LeastFree(ports, FIRST) == FIRST + n
  {
    hide LeastFree, Range;
    assert FIRST + n !in Held(ports);
  }

  lemma OneMoreLab(ports: Ports, lab: string, port: int)
    requires lab !in ports
    ensures |ports[lab := port]| == |ports| + 1
  {
    assert ports[lab := port].Keys == ports.Keys + {lab};
  }

  lemma HeldGrows(ports: Ports, n: nat, lab: string)
    requires n < END - FIRST && lab !in ports && Held(ports) == Range(FIRST, FIRST + n)
    ensures AllocateStep(ports, lab).0 == ports[lab := FIRST + n]
    ensures Held(ports[lab := FIRST + n]) == Range(FIRST, FIRST + n + 1)
    ensures |ports[lab := FIRST + n]| == |ports| + 1
  {
    hide LeastFree, Held;
    FirstGap(ports, n);
    var after := ports[lab := FIRST + n];
    assert after - {lab} == ports;
    HeldWith(ports, after, lab);
    OneMoreLab(ports, lab, FIRST + n);
  }

  lemma CrowdGrows(n: nat)
    requires n > 0
    ensures After(Crowd(n)) == AllocateStep(After(Crowd(n - 1)), LabName(n - 1)).0
  {
    assert Crowd(n)[..n - 1] == Crowd(n - 1) && Crowd(n)[n - 1] == Allocate(LabName(n - 1));
  }

  lemma {:induction false} CrowdHolds(n: nat)
    requires n <= END - FIRST
    ensures var ports := After(Crowd(n));
      Held(ports) == Range(FIRST, FIRST + n) && |ports| == n && forall lab | lab in ports :: |lab| < n
  {
    if n > 0 {
      hide AllocateStep, Held, LabName, After;
      CrowdHolds(n - 1);
      CrowdGrows(n);
      HeldGrows(After(Crowd(n - 1)), n - 1, LabName(n - 1));
    } else {
      assert After(Crowd(0)) == map[];
    }
  }

  /** The thousand and first lab is given the port of another lab, and no record of it is made. */
  lemma CrowdedOut(count: nat, lab: string)
    requires count == 1000 && |lab| >= count
    ensures var ports := After(Crowd(count));
      AllocateStep(ports, lab) == (ports, 15000) && 15000 in Held(ports) && lab !in ports
  {
    hide After;
    CrowdHolds(count);
    FallbackIffFull(Crowd(count), lab);
  }
}
