/**
 The NUMA tables and the launch of the primary process (primary-secondary/primarysecondary-workshare,
 node.c and main.c). Lcores and ports are classed per node into bit masks with counters beside them; the
 launch loop scans the masks and is steered by the counters alone.
 */
module NumaLaunch {
  import opened Bits
  import opened Launches

  const NODES: nat := 4
  const MAP_BITS: nat := 8

  datatype Lcore = Lcore(id: nat, socket: nat)

  datatype Speed = G1 | G10 | G40 | NoSpeed

  /** numa is the node of the PCI device, -1 when the system does not know it */
  datatype Port = Port(numa: int, speed: Speed)

  function SocketOf(p: Port): int {
    if p.numa == -1 then 0 else p.numa
  }

  /** What rte_get_next_lcore yields (ascending ids, the master left out) on a machine whose lcores and
      ports fit the tables. */
  ghost predicate Platform(lcores: seq<Lcore>, ports: seq<Port>) {
    && (forall i :: 0 <= i < |lcores| ==> lcores[i].id < 32 && lcores[i].socket < NODES)
    && (forall i, j :: 0 <= i < j < |lcores| ==> lcores[i].id < lcores[j].id)
    && |ports| <= 32
    && (forall i :: 0 <= i < |ports| ==> -1 <= ports[i].numa < NODES)
  }

  /** (1 << i) as an int, widened to the 64 bits of a core map: the top bit of an int is its sign. */
  function ShiftedOne(i: nat): nat {
    if i < 31 then Ones(i, 1) else Ones(31, 33)
  }

  function CoreMap(lcores: seq<Lcore>, s: nat): nat {
    if lcores == [] then 0 else
      var n: nat := |lcores| - 1;
      var m := CoreMap(lcores[..n], s);
      if lcores[n].socket == s then Or(m, ShiftedOne(lcores[n].id)) else m
  }

  function CoreCount(lcores: seq<Lcore>, s: nat): nat {
    if lcores == [] then 0 else
      var n: nat := |lcores| - 1;
      CoreCount(lcores[..n], s) + (if lcores[n].socket == s then 1 else 0)
  }

  predicate Belongs(p: Port, v: Speed, s: nat) {
    SocketOf(p) == s && p.speed == v
  }

  /** Where a port counts: on the node the system names, on node 0 if it names none. */
  predicate OnNode(p: Port, s: nat) {
    p.numa == s || (p.numa == -1 && s == 0)
  }

  lemma {:induction false} BelongsIs(p: Port, v: Speed, s: nat)
    ensures Belongs(p, v, s) <==> p.speed == v && OnNode(p, s)
  {
  }

  /** map |= (1 << i) on the eight bits of a port map: an index from 8 on leaves no mark. */
  function MarkPort(m: nat, i: nat): nat {
    if i < MAP_BITS then SetBit(m, i) else m
  }

  function PortMap(ports: seq<Port>, v: Speed, s: nat): nat {
    if ports == [] then 0 else
      var n: nat := |ports| - 1;
      var m := PortMap(ports[..n], v, s);
      if Belongs(ports[n], v, s) then MarkPort(m, n) else m
  }

  function PortCount(ports: seq<Port>, v: Speed, s: nat): nat {
    if ports == [] then 0 else
      var n: nat := |ports| - 1;
      PortCount(ports[..n], v, s) + (if Belongs(ports[n], v, s) then 1 else 0)
  }

  /** A bit of the map is set exactly for the ports of the class and node among the first eight. */
  lemma {:induction false} PortBits(ports: seq<Port>, v: Speed, s: nat, b: nat)
    ensures Bit(PortMap(ports, v, s), b) <==> b < MAP_BITS && b < |ports| && Belongs(ports[b], v, s)
    ensures Bit(PortMap(ports, v, s), b) <==> b < MAP_BITS && b < |ports| && ports[b].speed == v && OnNode(ports[b], s)
    decreases |ports|
  {
    if ports == [] {
      BitZero(b);
    } else {
      var n: nat := |ports| - 1;
      PortBits(ports[..n], v, s, b);
      BitSet(PortMap(ports[..n], v, s), n, b);
    }
  }

  ghost predicate IsOf(ports: seq<Port>, v: Speed, s: nat, i: nat) {
    i < |ports| && ports[i].speed == v && OnNode(ports[i], s)
  }

  /** The ports of a speed on a node. */
  ghost function PortsOf(ports: seq<Port>, v: Speed, s: nat): set<nat> {
    set i: nat | i < |ports| && IsOf(ports, v, s, i)
  }

  lemma {:induction false} PortsNext(ports: seq<Port>, v: Speed, s: nat)
    requires ports != []
    ensures var n: nat := |ports| - 1;
      |PortsOf(ports, v, s)| == |PortsOf(ports[..n], v, s)| + (if IsOf(ports, v, s, n) then 1 else 0)
  {
    var n: nat := |ports| - 1;
    var older, all := PortsOf(ports[..n], v, s), PortsOf(ports, v, s);
    forall i: nat ensures i in all <==> i in older || (i == n && IsOf(ports, v, s, n)) {
      IsOfFront(ports, v, s, i);
    }
    if IsOf(ports, v, s, n) {
      assert all == older + {n};
    } else {
      assert all == older;
    }
  }

  lemma {:induction false} IsOfFront(ports: seq<Port>, v: Speed, s: nat, i: nat)
    requires ports != []
    ensures IsOf(ports[..|ports| - 1], v, s, i) <==> i < |ports| - 1 && IsOf(ports, v, s, i)
  {
  }

  lemma {:induction false} CountsPorts(ports: seq<Port>, v: Speed, s: nat)
    ensures PortCount(ports, v, s) == |PortsOf(ports, v, s)|
    decreases |ports|
  {
    if ports != [] {
      CountsPorts(ports[..|ports| - 1], v, s);
      BelongsIs(ports[|ports| - 1], v, s);
      PortsNext(ports, v, s);
    }
  }

  ghost predicate FitsMap(ports: seq<Port>, v: Speed, s: nat) {
    forall i :: MAP_BITS <= i < |ports| ==> !Belongs(ports[i], v, s)
  }

  /** The map has as many bits as the counter says exactly if no port of the class and node has an index
      beyond the width of the map; otherwise it has fewer. */
  lemma {:induction false} PortPopulation(ports: seq<Port>, v: Speed, s: nat)
    ensures PopCount(PortMap(ports, v, s)) <= PortCount(ports, v, s)
    ensures PopCount(PortMap(ports, v, s)) == PortCount(ports, v, s) <==> FitsMap(ports, v, s)
    decreases |ports|
  {
    if ports != [] {
      var n: nat := |ports| - 1;
      var front := ports[..n];
      PortPopulation(front, v, s);
      PortBits(front, v, s, n);
      PopSet(PortMap(front, v, s), n);
      FitsFront(ports, v, s);
    }
  }

  lemma {:induction false} FitsFront(ports: seq<Port>, v: Speed, s: nat)
    requires ports != []
    ensures (var n: nat := |ports| - 1;
             FitsMap(ports, v, s) <==> FitsMap(ports[..n], v, s) && (n < MAP_BITS || !Belongs(ports[n], v, s)))
  {
    var n: nat := |ports| - 1;
    var front := ports[..n];
    assert forall i :: MAP_BITS <= i < n ==> front[i] == ports[i];
  }

  /** Maps of different classes or of different nodes share no port. */
  lemma {:induction false} MapsDisjoint(ports: seq<Port>, v: Speed, s: nat, w: Speed, t: nat, b: nat)
    requires v != w || s != t
    ensures !(Bit(PortMap(ports, v, s), b) && Bit(PortMap(ports, w, t), b))
  {
    PortBits(ports, v, s, b);
    PortBits(ports, w, t, b);
  }

  function SpeedCount(ports: seq<Port>, v: Speed): nat {
    if ports == [] then 0 else
      var n: nat := |ports| - 1;
      SpeedCount(ports[..n], v) + (if ports[n].speed == v then 1 else 0)
  }

  /** getCount1gPorts, getCount10gPorts and getCount40gPorts: the sum over the nodes counts every port of
      the speed once. */
  lemma {:induction false} NodesCoverPorts(ports: seq<Port>, v: Speed)
    requires forall i :: 0 <= i < |ports| ==> -1 <= ports[i].numa < NODES
    ensures (PortCount(ports, v, 0) + PortCount(ports, v, 1) + PortCount(ports, v, 2) + PortCount(ports, v, 3)
             == SpeedCount(ports, v))
    decreases |ports|
  {
    if ports != [] {
      var n: nat := |ports| - 1;
      NodesCoverPorts(ports[..n], v);
      assert -1 <= ports[n].numa < NODES;
    }
  }

  /** The bits a core map holds for one lcore. */
  predicate Marks(id: nat, b: nat) {
    if id < 31 then b == id else 31 <= b < 64
  }

  lemma {:induction false} MarksAre(id: nat, b: nat)
    ensures Bit(ShiftedOne(id), b) <==> Marks(id, b)
  {
    BitOnes(id, 1, b);
    BitOnes(31, 33, b);
  }

  ghost predicate Marked(lcores: seq<Lcore>, s: nat, b: nat) {
    exists k :: 0 <= k < |lcores| && lcores[k].socket == s && Marks(lcores[k].id, b)
  }

  lemma {:induction false} MarkedFront(lcores: seq<Lcore>, s: nat, b: nat)
    requires lcores != []
    ensures (var n: nat := |lcores| - 1;
             Marked(lcores, s, b) <==> (Marked(lcores[..n], s, b) ||
                                        (lcores[n].socket == s && Marks(lcores[n].id, b))))
  {
    var n: nat := |lcores| - 1;
    var front := lcores[..n];
    if Marked(front, s, b) {
      var k :| 0 <= k < |front| && front[k].socket == s && Marks(front[k].id, b);
      assert lcores[k] == front[k];
    }
    if Marked(lcores, s, b) {
      var k :| 0 <= k < |lcores| && lcores[k].socket == s && Marks(lcores[k].id, b);
      assert k < n ==> front[k] == lcores[k];
    }
  }

  lemma {:induction false} CoreBits(lcores: seq<Lcore>, s: nat, b: nat)
    ensures Bit(CoreMap(lcores, s), b) <==> Marked(lcores, s, b)
    decreases |lcores|
  {
    if lcores == [] {
      BitZero(b);
    } else {
      var n: nat := |lcores| - 1;
      CoreBits(lcores[..n], s, b);
      MarkedFront(lcores, s, b);
      MarksAre(lcores[n].id, b);
      BitOr(CoreMap(lcores[..n], s), ShiftedOne(lcores[n].id), b);
    }
  }

  ghost predicate Ascending(lcores: seq<Lcore>) {
    && (forall i :: 0 <= i < |lcores| ==> lcores[i].id < 32)
    && (forall i, j :: 0 <= i < j < |lcores| ==> lcores[i].id < lcores[j].id)
  }

  ghost predicate HasTop(lcores: seq<Lcore>, s: nat) {
    exists k :: 0 <= k < |lcores| && lcores[k].socket == s && lcores[k].id == 31
  }

  /** A core map counts every lcore of the node once, except that lcore 31 drags 32 further bits along:
      the map agrees with the counter exactly if that lcore is not on the node. */
  lemma {:induction false} CorePopulation(lcores: seq<Lcore>, s: nat)
    requires Ascending(lcores)
    ensures PopCount(CoreMap(lcores, s)) == CoreCount(lcores, s) + (if HasTop(lcores, s) then 32 else 0)
    decreases |lcores|
  {
    if lcores != [] {
      var n: nat := |lcores| - 1;
      var front, id := lcores[..n], lcores[n].id;
      CorePopulation(front, s);
      TopFront(lcores, s);
      PopOnes(id, 1);
      PopOnes(31, 33);
      forall b: nat ensures !(Bit(CoreMap(front, s), b) && Bit(ShiftedOne(id), b)) {
        CoreBits(front, s, b);
        MarksAre(id, b);
      }
      PopOr(CoreMap(front, s), ShiftedOne(id));
    }
  }

  lemma {:induction false} TopFront(lcores: seq<Lcore>, s: nat)
    requires Ascending(lcores) && lcores != []
    ensures !HasTop(lcores[..|lcores| - 1], s)
    ensures HasTop(lcores, s) <==> lcores[|lcores| - 1].socket == s && lcores[|lcores| - 1].id == 31
  {
    var n: nat := |lcores| - 1;
    assert forall k :: 0 <= k < n ==> lcores[k].id < lcores[n].id;
  }

  /** The ports the launch loop serves on a node: 40G or 10G. */
  predicate Fast(p: Port, s: nat) {
    (p.speed == G40 || p.speed == G10) && OnNode(p, s)
  }

  function FastMap(ports: seq<Port>, s: nat): nat {
    Or(PortMap(ports, G40, s), PortMap(ports, G10, s))
  }

  function FastCount(ports: seq<Port>, s: nat): nat {
    PortCount(ports, G10, s) + PortCount(ports, G40, s)
  }

  ghost predicate FastFits(ports: seq<Port>, s: nat) {
    FitsMap(ports, G40, s) && FitsMap(ports, G10, s)
  }

  lemma {:induction false} FastBits(ports: seq<Port>, s: nat, b: nat)
    ensures Bit(FastMap(ports, s), b) <==> b < MAP_BITS && b < |ports| && Fast(ports[b], s)
  {
    PortBits(ports, G40, s, b);
    PortBits(ports, G10, s, b);
    BitOr(PortMap(ports, G40, s), PortMap(ports, G10, s), b);
  }

  /** The launch loop asks for as many ports as the counters say. The mask holds that many exactly if every
      fast port of the node fits the maps; otherwise it holds fewer. */
  lemma {:induction false} FastPopulation(ports: seq<Port>, s: nat)
    ensures PopCount(FastMap(ports, s)) <= FastCount(ports, s)
    ensures PopCount(FastMap(ports, s)) == FastCount(ports, s) <==> FastFits(ports, s)
  {
    PortPopulation(ports, G40, s);
    PortPopulation(ports, G10, s);
    forall b: nat ensures !(Bit(PortMap(ports, G40, s), b) && Bit(PortMap(ports, G10, s), b)) {
      MapsDisjoint(ports, G40, s, G10, s, b);
    }
    PopOr(PortMap(ports, G40, s), PortMap(ports, G10, s));
  }

  /** From here on 1 << i is no int: the shift is undefined. */
  const INT_BITS: nat := 32

  /** mask & (1 << i) for an int shift: the sign of 1 << 31 spreads over all bits from 31 on. */
  predicate Test(mask: nat, i: nat)
    requires i < INT_BITS
  {
    if i < 31 then Bit(mask, i) else Shift(mask, 31) != 0
  }

  lemma {:induction false} TestAtSign(mask: nat)
    ensures Test(mask, 31) <==> Rank(mask, 31) < PopCount(mask)
  {
    PopSplit(mask, 31);
    PopZero(Shift(mask, 31));
  }

  /** The while loop that skips clear bits; not ok is the loop running into the undefined shift. */
  method Scan(mask: nat, start: nat) returns (ok: bool, i: nat)
    requires start <= INT_BITS
    ensures start <= i <= INT_BITS && (ok <==> i < INT_BITS) && (ok ==> Test(mask, i))
    ensures forall k :: start <= k < i ==> !Test(mask, k)
  {
    i := start;
    while i < INT_BITS && !Test(mask, i)
      invariant start <= i <= INT_BITS && forall k :: start <= k < i ==> !Test(mask, k)
    {
      i := i + 1;
    }
    ok := i < INT_BITS;
  }

  lemma {:induction false} RankSkips(mask: nat, start: nat, i: nat)
    requires start <= i <= 31 && forall k :: start <= k < i ==> !Test(mask, k)
    ensures Rank(mask, i) == Rank(mask, start)
    decreases i
  {
    if start < i {
      RankSkips(mask, start, i - 1);
      assert !Test(mask, i - 1);
    }
  }

  /** A scan for a bit of which one lies ahead, below the sign, stops at the next one. */
  lemma {:induction false} ScanFinds(mask: nat, start: nat, ok: bool, i: nat)
    requires Rank(mask, start) < Rank(mask, 31) && start <= i <= INT_BITS && (ok <==> i < INT_BITS)
    requires (ok ==> Test(mask, i)) && forall k :: start <= k < i ==> !Test(mask, k)
    ensures ok && Bit(mask, i) && Rank(mask, i) == Rank(mask, start)
  {
    if start > 31 {
      RankMonotone(mask, 31, start);
    } else if i >= 31 {
      RankSkips(mask, start, 31);
    } else {
      RankSkips(mask, start, i);
    }
  }

  /** A scan in a mask without further bits runs into the undefined shift. */
  lemma {:induction false} ScanRunsAway(mask: nat, start: nat, ok: bool, i: nat)
    requires Rank(mask, 31) == PopCount(mask) == Rank(mask, start) && start <= i <= INT_BITS
    requires (ok <==> i < INT_BITS) && (ok ==> Test(mask, i))
    ensures !ok
  {
    if ok {
      TestAtSign(mask);
      RankMonotone(mask, start, i);
      RankBound(mask, i + 1);
    }
  }

  /** The loop of the primary over the masks, for count ports: it pairs by rank as long as there are ports,
      and ends in the undefined shift exactly if it asks for more ports than the mask holds. */
  method LaunchAll(ports: nat, cores: nat, count: nat) returns (ok: bool, launches: seq<Launch>)
    requires Rank(ports, 31) == PopCount(ports) && count <= Rank(cores, 31)
    ensures ok <==> count <= PopCount(ports)
    ensures |launches| == (if ok then count else PopCount(ports)) && ByRank(ports, cores, launches)
  {
    launches := [];
    var argPort, next := 0, 0;
    RankBound(ports, 31);
    for j := 0 to count
      invariant |launches| == j <= PopCount(ports) && ByRank(ports, cores, launches)
      invariant argPort <= INT_BITS && Rank(ports, argPort) == j && next <= INT_BITS && Rank(cores, next) == j
    {
      var start := argPort;
      ok, argPort := Scan(ports, start);
      if !ok {
        if j < PopCount(ports) {
          ScanFinds(ports, start, ok, argPort);
        }
        return;
      }
      if j == PopCount(ports) {
        ScanRunsAway(ports, start, ok, argPort);
      }
      ScanFinds(ports, start, ok, argPort);
      var found, wlcore := Scan(cores, next);
      ScanFinds(cores, next, found, wlcore);
      ByRankSnoc(ports, cores, launches, argPort, wlcore);
      launches := launches + [Launch(argPort, wlcore)];
      argPort, next := argPort + 1, wlcore + 1;
    }
    ok := true;
  }

  lemma {:induction false} FastBelowSign(ports: seq<Port>, s: nat)
    ensures Rank(FastMap(ports, s), 31) == PopCount(FastMap(ports, s))
  {
    forall b: nat | 31 <= b ensures !Bit(FastMap(ports, s), b) {
      FastBits(ports, s, b);
    }
    BitAhead(FastMap(ports, s), 31);
    RankBound(FastMap(ports, s), 31);
  }

  /** How a node of the primary starts: nothing to do, too few cores, a run into an undefined shift after
      some launches, or all its fast ports launched. */
  datatype Start =
    | NoPorts
    | TooFewCores
    | UndefinedShift(launches: seq<Launch>)
    | Started(launches: seq<Launch>)

  lemma {:induction false} AllOfOneClass(k: nat, v: Speed, w: Speed)
    ensures PortCount(seq(k, _ => Port(-1, v)), w, 0) == (if v == w then k else 0)
  {
    if k > 0 {
      var ports := seq(k, _ => Port(-1, v));
      AllOfOneClass(k - 1, v, w);
      assert ports[..k - 1] == seq(k - 1, _ => Port(-1, v));
    }
  }

  /** The smallest case: nine 10G ports on node 0. The counters ask for nine, the mask holds eight. */
  lemma {:induction false} NinthPortIsLost()
    ensures var ports := seq(9, _ => Port(-1, G10));
      !FastFits(ports, 0) && FastCount(ports, 0) == 9 && PopCount(FastMap(ports, 0)) < 9
  {
    var ports := seq(9, _ => Port(-1, G10));
    AllOfOneClass(9, G10, G10);
    AllOfOneClass(9, G10, G40);
    assert Belongs(ports[8], G10, 0);
    FastPopulation(ports, 0);
  }

  class NumaInfo {
    var map1: seq<nat>
    var map10: seq<nat>
    var map40: seq<nat>
    var count1: seq<nat>
    var count10: seq<nat>
    var count40: seq<nat>
    var coreMap: seq<nat>
    var coreCount: seq<nat>

    ghost predicate Valid()
      reads this
    {
      |map1| == |map10| == |map40| == |count1| == |count10| == |count40| == |coreMap| == |coreCount| == NODES
    }

    ghost predicate HoldsPorts(ports: seq<Port>)
      requires Valid()
      reads this
    {
      forall s :: 0 <= s < NODES ==>
        && map1[s] == PortMap(ports, G1, s) && count1[s] == PortCount(ports, G1, s)
        && map10[s] == PortMap(ports, G10, s) && count10[s] == PortCount(ports, G10, s)
        && map40[s] == PortMap(ports, G40, s) && count40[s] == PortCount(ports, G40, s)
    }

    ghost predicate HoldsCores(lcores: seq<Lcore>)
      requires Valid()
      reads this
    {
      forall s :: 0 <= s < NODES ==> coreMap[s] == CoreMap(lcores, s) && coreCount[s] == CoreCount(lcores, s)
    }

    /** The memory zone comes zeroed. */
    constructor ()
      ensures Valid() && HoldsPorts([]) && HoldsCores([])
    {
      map1, map10, map40 := [0, 0, 0, 0], [0, 0, 0, 0], [0, 0, 0, 0];
      count1, count10, count40 := [0, 0, 0, 0], [0, 0, 0, 0], [0, 0, 0, 0];
      coreMap, coreCount := [0, 0, 0, 0], [0, 0, 0, 0];
    }

    /** A map of a speed holds the ports of that speed on the node among the first eight, and its counter all. */
    ghost predicate Classes(ports: seq<Port>, v: Speed, bits: nat, count: nat, s: nat) {
      && (forall b: nat :: Bit(bits, b) <==> b < MAP_BITS && b < |ports| && ports[b].speed == v && OnNode(ports[b], s))
      && count == |PortsOf(ports, v, s)|
    }

    ghost predicate AllClassed(ports: seq<Port>)
      requires Valid()
      reads this
    {
      forall s :: 0 <= s < NODES ==>
        && Classes(ports, G1, map1[s], count1[s], s)
        && Classes(ports, G10, map10[s], count10[s], s)
        && Classes(ports, G40, map40[s], count40[s], s)
    }

    lemma {:induction false} HeldIsClassed(ports: seq<Port>)
      requires Valid() && HoldsPorts(ports)
      ensures AllClassed(ports)
    {
      forall s, v | 0 <= s < NODES ensures Classes(ports, v, PortMap(ports, v, s), PortCount(ports, v, s), s) {
        ClassHolds(ports, v, s);
      }
    }

    lemma {:induction false} ClassHolds(ports: seq<Port>, v: Speed, s: nat)
      ensures Classes(ports, v, PortMap(ports, v, s), PortCount(ports, v, s), s)
    {
      CountsPorts(ports, v, s);
      forall b: nat
        ensures Bit(PortMap(ports, v, s), b) <==>
                b < MAP_BITS && b < |ports| && ports[b].speed == v && OnNode(ports[b], s)
      {
        PortBits(ports, v, s, b);
      }
    }

    method AddCores(lcores: seq<Lcore>)
      requires Valid() && HoldsCores([])
      requires forall i :: 0 <= i < |lcores| ==> lcores[i].socket < NODES
      modifies `coreMap, `coreCount
      ensures Valid() && HoldsCores(lcores)
    {
      assert lcores[..0] == [];
      for i := 0 to |lcores|
        invariant Valid() && HoldsCores(lcores[..i])
      {
        var socketId := lcores[i].socket;
        coreMap := coreMap[socketId := Or(coreMap[socketId], ShiftedOne(lcores[i].id))];
        coreCount := coreCount[socketId := coreCount[socketId] + 1];
        assert lcores[..i + 1][..i] == lcores[..i];
      }
      assert lcores[..|lcores|] == lcores;
    }

    /** Class one port by its speed. */
    method AddPort(ports: seq<Port>, i: nat)
      requires Valid() && i < |ports| && HoldsPorts(ports[..i]) && -1 <= ports[i].numa < NODES
      modifies `map1, `map10, `map40, `count1, `count10, `count40
      ensures Valid() && HoldsPorts(ports[..i + 1]) && AllClassed(ports[..i + 1])
    {
      var socketId: nat := SocketOf(ports[i]);
      assert ports[..i + 1][..i] == ports[..i];
      match ports[i].speed {
        case G40 =>
          map40 := map40[socketId := MarkPort(map40[socketId], i)];
          count40 := count40[socketId := count40[socketId] + 1];
        case G10 =>
          map10 := map10[socketId := MarkPort(map10[socketId], i)];
          count10 := count10[socketId := count10[socketId] + 1];
        case G1 =>
          map1 := map1[socketId := MarkPort(map1[socketId], i)];
          count1 := count1[socketId := count1[socketId] + 1];
        case NoSpeed =>
      }
      HeldIsClassed(ports[..i + 1]);
    }

    /** populateNodeInfo */
    method Populate(lcores: seq<Lcore>, ports: seq<Port>)
      requires Valid() && HoldsPorts([]) && HoldsCores([]) && Platform(lcores, ports)
      modifies this
      ensures Valid() && HoldsPorts(ports) && HoldsCores(lcores) && AllClassed(ports)
    {
      AddCores(lcores);
      assert ports[..0] == [];
      for i := 0 to |ports|
        invariant Valid() && HoldsPorts(ports[..i]) && HoldsCores(lcores)
      {
        AddPort(ports, i);
      }
      assert ports[..|ports|] == ports;
      HeldIsClassed(ports);
    }

    /** One node of the launch in main. */
    method StartNode(lcores: seq<Lcore>, ports: seq<Port>, s: nat) returns (start: Start)
      requires Valid() && HoldsPorts(ports) && HoldsCores(lcores) && Platform(lcores, ports) && s < NODES
      ensures start == NoPorts <==> FastCount(ports, s) == 0
      ensures start == TooFewCores <==> 0 < FastCount(ports, s) && CoreCount(lcores, s) <= FastCount(ports, s)
      ensures start.UndefinedShift? <==>
              0 < FastCount(ports, s) < CoreCount(lcores, s) && !FastFits(ports, s)
      ensures start.UndefinedShift? ==> |start.launches| == PopCount(FastMap(ports, s)) < FastCount(ports, s)
      ensures start.Started? ==> |start.launches| == FastCount(ports, s) && FastFits(ports, s)
      ensures start.UndefinedShift? || start.Started? ==>
                ByRank(FastMap(ports, s), CoreMap(lcores, s), start.launches)
    {
      if count40[s] != 0 || count10[s] != 0 {
        var portMask, coreMask := Or(map40[s], map10[s]), coreMap[s];
        if coreCount[s] >= count10[s] + count40[s] + 1 {
          FastPopulation(ports, s);
          FastBelowSign(ports, s);
          GuardedCores(lcores, s);
          var ok, launches := LaunchAll(portMask, coreMask, count10[s] + count40[s]);
          return if ok then Started(launches) else UndefinedShift(launches);
        } else {
          return TooFewCores;
        }
      }
      return NoPorts;
    }
  }

  lemma {:induction false} RankSame(a: nat, b: nat, w: nat)
    requires forall i: nat :: i < w ==> (Bit(a, i) <==> Bit(b, i))
    ensures Rank(a, w) == Rank(b, w)
  {
    if w > 0 {
      RankSame(a, b, w - 1);
    }
  }

  /** However the sign bit spreads, a core of a rank covered by the guard is a real lcore of the node. */
  lemma {:induction false} CoreIsReal(lcores: seq<Lcore>, s: nat, core: nat) returns (k: nat)
    requires Ascending(lcores) && Bit(CoreMap(lcores, s), core)
    requires Rank(CoreMap(lcores, s), core) + 1 < CoreCount(lcores, s)
    ensures k < |lcores| && lcores[k].id == core && lcores[k].socket == s
  {
    CoreBits(lcores, s, core);
    k :| 0 <= k < |lcores| && lcores[k].socket == s && Marks(lcores[k].id, core);
    if core >= 31 {
      LowCores(lcores, s);
      RankMonotone(CoreMap(lcores, s), 31, core);
      assert false;
    }
  }

  /** Below bit 31 a core map holds all lcores of the node but at most one. */
  lemma {:induction false} LowCores(lcores: seq<Lcore>, s: nat)
    requires Ascending(lcores) && HasTop(lcores, s)
    ensures Rank(CoreMap(lcores, s), 31) + 1 == CoreCount(lcores, s)
  {
    TopFront(lcores, s);
    var n: nat := |lcores| - 1;
    var front := lcores[..n];
    forall b: nat | b < 31 ensures Bit(CoreMap(lcores, s), b) <==> Bit(CoreMap(front, s), b) {
      MarksAre(31, b);
      BitOr(CoreMap(front, s), ShiftedOne(31), b);
    }
    RankSame(CoreMap(lcores, s), CoreMap(front, s), 31);
    CorePopulation(front, s);
    forall b: nat | 31 <= b ensures !Bit(CoreMap(front, s), b) {
      CoreBits(front, s, b);
    }
    BitAhead(CoreMap(front, s), 31);
    RankBound(CoreMap(front, s), 31);
  }

  /** The core-count guard keeps the scan for cores below the sign bit. */
  lemma {:induction false} GuardedCores(lcores: seq<Lcore>, s: nat)
    requires Ascending(lcores)
    ensures CoreCount(lcores, s) <= Rank(CoreMap(lcores, s), 31) + 1
  {
    if HasTop(lcores, s) {
      LowCores(lcores, s);
    } else {
      CorePopulation(lcores, s);
      forall b: nat | 31 <= b ensures !Bit(CoreMap(lcores, s), b) {
        CoreBits(lcores, s, b);
      }
      BitAhead(CoreMap(lcores, s), 31);
      RankBound(CoreMap(lcores, s), 31);
    }
  }

  /** What a started node runs: every fast port of the node on exactly one core, ports and cores in
      ascending order and so distinct, and every core an enabled lcore of the node other than the master. */
  lemma {:induction false} EveryPortOnItsOwnCore(lcores: seq<Lcore>, ports: seq<Port>, s: nat, launches: seq<Launch>)
    requires Platform(lcores, ports) && FastFits(ports, s)
    requires |launches| == FastCount(ports, s) < CoreCount(lcores, s)
    requires ByRank(FastMap(ports, s), CoreMap(lcores, s), launches)
    ensures Increasing(launches)
    ensures forall j :: 0 <= j < |launches| ==> launches[j].port < |ports| && Fast(ports[launches[j].port], s)
    ensures forall j :: 0 <= j < |launches| ==>
      exists k :: 0 <= k < |lcores| && lcores[k] == Lcore(launches[j].core, s)
    ensures forall p: nat :: p < |ports| && Fast(ports[p], s) ==>
      exists j :: 0 <= j < |launches| && launches[j].port == p
  {
    ByRankIncreases(FastMap(ports, s), CoreMap(lcores, s), launches);
    forall j | 0 <= j < |launches| ensures launches[j].port < |ports| && Fast(ports[launches[j].port], s) {
      FastBits(ports, s, launches[j].port);
    }
    forall j | 0 <= j < |launches|
      ensures exists k :: 0 <= k < |lcores| && lcores[k] == Lcore(launches[j].core, s)
    {
      var k := CoreIsReal(lcores, s, launches[j].core);
      assert lcores[k] == Lcore(launches[j].core, s);
    }
    forall p: nat | p < |ports| && Fast(ports[p], s)
      ensures exists j :: 0 <= j < |launches| && launches[j].port == p
    {
      PortIsLaunched(lcores, ports, s, launches, p);
    }
  }

  lemma {:induction false} PortIsLaunched(lcores: seq<Lcore>, ports: seq<Port>, s: nat, launches: seq<Launch>, p: nat)
    requires FastFits(ports, s) && |launches| == FastCount(ports, s)
    requires ByRank(FastMap(ports, s), CoreMap(lcores, s), launches)
    requires p < |ports| && Fast(ports[p], s)
    ensures exists j :: 0 <= j < |launches| && launches[j].port == p
  {
    var pm := FastMap(ports, s);
    FastBits(ports, s, p);
    FastPopulation(ports, s);
    RankBound(pm, p + 1);
    assert Rank(pm, p + 1) == Rank(pm, p) + 1;
    var j := Rank(pm, p);
    RankInjective(pm, launches[j].port, p);
  }
}
