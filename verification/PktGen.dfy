/**
 The packet generator (custom-pktgen/pktgen-generic/main.c): the loop that pairs the lowest core with the
 lowest port of a socket until one mask is used up, and the loop that allocates, sends and frees buffers.
 */
module PktGen {
  import opened Arithmetic
  import opened Bits
  import opened Launches
  import opened Sequences

  /** __builtin_ffs(m) - 1 for a nonzero mask */
  function Lowest(m: nat): (i: nat)
    requires m > 0
    ensures Bit(m, i) && forall k: nat :: k < i ==> !Bit(m, k)
  {
    if m % 2 == 1 then 0 else
      var i := Lowest(m / 2);
      assert forall k: nat :: 0 < k < i + 1 ==> (Bit(m, k) <==> Bit(m / 2, k - 1));
      i + 1
  }

  /** The lowest j bits of the mask are taken, the others left. */
  ghost predicate Split(mask: nat, left: nat, taken: nat, j: nat) {
    && (forall b: nat :: Bit(left, b) <==> Bit(mask, b) && Rank(mask, b) >= j)
    && (forall b: nat :: Bit(taken, b) <==> Bit(mask, b) && Rank(mask, b) < j)
    && PopCount(left) + j == PopCount(mask)
    && PopCount(taken) == j
  }

  lemma {:induction false} SplitInit(mask: nat)
    ensures Split(mask, mask, 0, 0)
  {
    forall b: nat ensures !Bit(0, b) {
      BitZero(b);
    }
  }

  lemma {:induction false} PopPositive(m: nat)
    requires m > 0
    ensures PopCount(m) > 0
  {
    if m % 2 == 0 {
      PopPositive(m / 2);
    }
  }

  /** The lowest bit left is the one of rank j. */
  lemma {:induction false} LowestHasRank(mask: nat, left: nat, taken: nat, j: nat)
    requires Split(mask, left, taken, j) && left > 0
    ensures Bit(mask, Lowest(left)) && Rank(mask, Lowest(left)) == j
  {
    PopPositive(left);
    PopBound(mask);
    RankAll(mask, mask);
    var i := RankReached(mask, mask, j);
    assert Bit(left, i);
    if Lowest(left) < i {
      RankMonotone(mask, Lowest(left), i);
    }
  }

  /** Moving it from the one part to the other. */
  lemma {:induction false} SplitStep(mask: nat, left: nat, taken: nat, j: nat)
    requires Split(mask, left, taken, j) && left > 0
    ensures Split(mask, ToggleBit(left, Lowest(left)), SetBit(taken, Lowest(left)), j + 1)
  {
    var low := Lowest(left);
    LowestHasRank(mask, left, taken, j);
    PopToggle(left, low);
    PopSet(taken, low);
    forall b: nat
      ensures Bit(ToggleBit(left, low), b) <==> Bit(mask, b) && Rank(mask, b) >= j + 1
      ensures Bit(SetBit(taken, low), b) <==> Bit(mask, b) && Rank(mask, b) < j + 1
    {
      BitToggle(left, low, b);
      BitSet(taken, low, b);
      if Bit(mask, b) && Rank(mask, b) == j {
        RankInjective(mask, b, low);
      }
    }
  }

  /** The core mask of a socket loses the master exactly if the master was on the socket; on every other
      socket the exclusive or puts the master's bit in. */
  lemma {:induction false} MasterLeaves(avail: nat, master: nat, b: nat)
    ensures !Bit(ToggleBit(avail, master), master) <==> Bit(avail, master)
    ensures b != master ==> (Bit(ToggleBit(avail, master), b) <==> Bit(avail, b))
  {
    BitToggle(avail, master, master);
    BitToggle(avail, master, b);
  }

  /** UndefinedShift is a shift by __builtin_ffs(0) - 1, which C leaves undefined. */
  datatype Outcome =
    | Idle
    | NoLcore
    | UndefinedShift
    | Done(launches: seq<Launch>)

  /** The used mask holds the n lowest bits of the mask. */
  ghost predicate Used(used: nat, mask: nat, n: nat) {
    forall b: nat :: Bit(used, b) <==> Bit(mask, b) && Rank(mask, b) < n
  }

  class NumaNode {
    var lcoreAvail: nat
    var intfAvail: nat
    var lcoreTotal: nat
    var intfTotal: nat
    var lcoreUsed: nat
    var intfUsed: nat
    var lcoreInUse: nat
    var intfInUse: nat

    constructor (lcores: nat, intfs: nat)
      ensures lcoreAvail == lcores && intfAvail == intfs
      ensures lcoreTotal == PopCount(lcores) && intfTotal == PopCount(intfs)
      ensures lcoreUsed == intfUsed == lcoreInUse == intfInUse == 0
    {
      lcoreAvail, intfAvail, lcoreTotal, intfTotal := lcores, intfs, PopCount(lcores), PopCount(intfs);
      lcoreUsed, intfUsed, lcoreInUse, intfInUse := 0, 0, 0, 0;
    }

    /** The do-while loop of launchNumaThread. */
    method LaunchPairs(cores: nat, ports: nat) returns (launches: seq<Launch>)
      requires cores > 0 && ports > 0
      requires lcoreUsed == intfUsed == lcoreInUse == intfInUse == 0
      modifies `lcoreUsed, `intfUsed, `lcoreInUse, `intfInUse
      ensures |launches| == Min(PopCount(ports), PopCount(cores)) && ByRank(ports, cores, launches)
      ensures lcoreInUse == intfInUse == PopCount(lcoreUsed) == PopCount(intfUsed) == |launches|
      ensures Used(lcoreUsed, cores, |launches|) && Used(intfUsed, ports, |launches|)
    {
      var coreMask, portMask := cores, ports;
      launches := [];
      SplitInit(cores);
      SplitInit(ports);
      var again := true;
      while again
        invariant Split(cores, coreMask, lcoreUsed, |launches|) && Split(ports, portMask, intfUsed, |launches|)
        invariant ByRank(ports, cores, launches) && lcoreInUse == intfInUse == |launches|
        invariant again <==> portMask > 0 && coreMask > 0
        decreases PopCount(portMask), again
      {
        var portIndex, coreIndex := Lowest(portMask), Lowest(coreMask);
        LowestHasRank(cores, coreMask, lcoreUsed, |launches|);
        LowestHasRank(ports, portMask, intfUsed, |launches|);
        SplitStep(cores, coreMask, lcoreUsed, |launches|);
        SplitStep(ports, portMask, intfUsed, |launches|);
        ByRankSnoc(ports, cores, launches, portIndex, coreIndex);
        coreMask, portMask := ToggleBit(coreMask, coreIndex), ToggleBit(portMask, portIndex);
        launches := launches + [Launch(portIndex, coreIndex)];
        lcoreUsed, intfUsed := SetBit(lcoreUsed, coreIndex), SetBit(intfUsed, portIndex);
        lcoreInUse, intfInUse := lcoreInUse + 1, intfInUse + 1;
        again := portMask != 0 && coreMask != 0;
      }
      assert PopCount(0) == 0;
    }

    /** One socket of launchNumaThread. */
    method LaunchSocket(master: nat) returns (outcome: Outcome)
      requires lcoreUsed == intfUsed == lcoreInUse == intfInUse == 0
      modifies `lcoreUsed, `intfUsed, `lcoreInUse, `intfInUse
      ensures outcome == Idle <==> intfTotal == 0
      ensures outcome == NoLcore <==> intfTotal != 0 && lcoreTotal == 0
      ensures (outcome == UndefinedShift <==>
               intfTotal != 0 && lcoreTotal != 0 && (intfAvail == 0 || ToggleBit(lcoreAvail, master) == 0))
      ensures outcome.Done? ==> Served(outcome.launches, ToggleBit(lcoreAvail, master))
    {
      var cores, ports := ToggleBit(lcoreAvail, master), intfAvail;
      if lcoreTotal != 0 && intfTotal != 0 {
        if cores == 0 || ports == 0 {
          return UndefinedShift;
        }
        var launches := LaunchPairs(cores, ports);
        return Done(launches);
      } else if intfTotal != 0 {
        return NoLcore;
      }
      return Idle;
    }

    ghost predicate Served(launches: seq<Launch>, cores: nat)
      reads this
    {
      && |launches| == Min(PopCount(intfAvail), PopCount(cores)) && ByRank(intfAvail, cores, launches)
      && lcoreInUse == intfInUse == PopCount(lcoreUsed) == PopCount(intfUsed) == |launches|
      && Used(lcoreUsed, cores, |launches|) && Used(intfUsed, intfAvail, |launches|)
    }
  }

  /** What the socket that holds the master runs: ports and cores ascending and so distinct, never on the
      master. Every interface gets a generator exactly if the socket has a core left for each. */
  lemma {:induction false} PairsAreDistinct(avail: nat, master: nat, intfs: nat, launches: seq<Launch>)
    requires Bit(avail, master) && ByRank(intfs, ToggleBit(avail, master), launches)
    ensures Increasing(launches)
    ensures forall j :: 0 <= j < |launches| ==> launches[j].core != master && Bit(avail, launches[j].core)
    ensures PopCount(ToggleBit(avail, master)) == PopCount(avail) - 1
  {
    ByRankIncreases(intfs, ToggleBit(avail, master), launches);
    forall j | 0 <= j < |launches| ensures launches[j].core != master && Bit(avail, launches[j].core) {
      MasterLeaves(avail, master, launches[j].core);
    }
    PopToggle(avail, master);
  }

  /** On whichever socket: the master gets a generator exactly if it is not in the socket's own mask, so that
      the exclusive or has put it there, and enough interfaces are left when its turn comes. */
  lemma {:induction false} MasterServed(avail: nat, master: nat, intfs: nat, launches: seq<Launch>)
    requires ByRank(intfs, ToggleBit(avail, master), launches)
    ensures ((exists j :: 0 <= j < |launches| && launches[j].core == master) <==>
             !Bit(avail, master) && Rank(ToggleBit(avail, master), master) < |launches|)
  {
    var cores := ToggleBit(avail, master);
    BitToggle(avail, master, master);
    if !Bit(avail, master) && Rank(cores, master) < |launches| {
      var j := Rank(cores, master);
      RankInjective(cores, launches[j].core, master);
    }
  }

  lemma {:induction false} AllServedIfEnoughCores(cores: nat, intfs: nat, launches: seq<Launch>)
    requires ByRank(intfs, cores, launches) && |launches| == Min(PopCount(intfs), PopCount(cores))
    ensures (forall p: nat :: Bit(intfs, p) ==> PortServed(launches, p)) <==> PopCount(intfs) <= PopCount(cores)
  {
    forall p: nat | Bit(intfs, p) ensures PortServed(launches, p) <==> Rank(intfs, p) < |launches| {
      ServedByRank(cores, intfs, launches, p);
      RankBound(intfs, p + 1);
      assert Rank(intfs, p + 1) == Rank(intfs, p) + 1;
    }
    if PopCount(intfs) <= PopCount(cores) {
      forall p: nat | Bit(intfs, p) ensures PortServed(launches, p) {
        RankBound(intfs, p + 1);
        assert Rank(intfs, p + 1) == Rank(intfs, p) + 1;
      }
    } else {
      PopBound(intfs);
      RankAll(intfs, intfs);
      var p := RankReached(intfs, intfs, PopCount(cores));
    }
  }

  ghost predicate PortServed(launches: seq<Launch>, p: nat) {
    exists j :: 0 <= j < |launches| && launches[j].port == p
  }

  lemma {:induction false} ServedByRank(cores: nat, intfs: nat, launches: seq<Launch>, p: nat)
    requires ByRank(intfs, cores, launches) && Bit(intfs, p)
    ensures PortServed(launches, p) <==> Rank(intfs, p) < |launches|
  {
    if Rank(intfs, p) < |launches| {
      RankInjective(intfs, launches[Rank(intfs, p)].port, p);
    }
  }

  // The generator of one port.

  const MAX_TX_BURST_COUNT: nat := 8

  type Mbuf = nat

  /** One turn of the generator as the pool and the device play it: the buffers the pool hands out before it
      has none left, and how many of a full burst the device takes. */
  datatype Turn = Turn(mbufs: seq<Mbuf>, taken: nat)

  class Generator {
    const ptr: array<Mbuf>
    /** what the pool handed out and got back, and what the device took */
    var drawn: seq<Mbuf>
    var freed: seq<Mbuf>
    var sent: seq<Mbuf>
    /** the counter of the packet type of the port */
    var tx: nat

    constructor ()
      ensures ptr.Length == MAX_TX_BURST_COUNT && fresh(ptr) && drawn == sent == freed == [] && tx == 0
    {
      ptr := new Mbuf[MAX_TX_BURST_COUNT];
      drawn, freed, sent, tx := [], [], [], 0;
    }

    /** The allocation loop: fill ptr, or at the first failure free what is there, last buffer first. */
    method Allocate(mbufs: seq<Mbuf>) returns (full: bool)
      requires |mbufs| <= MAX_TX_BURST_COUNT == ptr.Length
      modifies `drawn, `freed, ptr
      ensures full <==> |mbufs| == MAX_TX_BURST_COUNT
      ensures drawn == old(drawn) + mbufs
      ensures freed == if full then old(freed) else old(freed) + Reversed(mbufs)
      ensures full ==> ptr[..] == mbufs
    {
      ghost var before := drawn;
      for i := 0 to MAX_TX_BURST_COUNT
        invariant i <= |mbufs| && ptr[..i] == mbufs[..i]
        invariant drawn == before + mbufs[..i] && freed == old(freed)
      {
        if i == |mbufs| {
          FreeBack(i);
          assert mbufs[..i] == mbufs;
          return false;
        }
        ptr[i] := mbufs[i];
        drawn := drawn + [mbufs[i]];
      }
      assert mbufs[..MAX_TX_BURST_COUNT] == mbufs;
      return true;
    }

    method FreeBack(n: nat)
      requires n <= ptr.Length
      modifies `freed
      ensures freed == old(freed) + Reversed(ptr[..n])
    {
      var i := n;
      ghost var back: seq<Mbuf> := [];
      assert ptr[i..n] == [];
      while i > 0
        invariant 0 <= i <= n && freed == old(freed) + back && Reversed(ptr[..n]) == back + Reversed(ptr[..i])
      {
        i := i - 1;
        ReversedConcat(ptr[..i], ptr[i]);
        assert ptr[..i + 1] == ptr[..i] + [ptr[i]];
        Assoc(back, [ptr[i]], Reversed(ptr[..i]));
        Assoc(old(freed), back, [ptr[i]]);
        freed := freed + [ptr[i]];
        back := back + [ptr[i]];
      }
      assert back + Reversed(ptr[..0]) == back;
    }

    /** Hand the burst over and free what the device did not take. */
    method Transmit(taken: nat)
      requires ptr.Length == MAX_TX_BURST_COUNT
      modifies `sent, `freed, `tx
      ensures var n := Min(taken, MAX_TX_BURST_COUNT);
        sent == old(sent) + ptr[..n] && freed == old(freed) + ptr[n..] && tx == old(tx) + n
    {
      var ret := Min(taken, MAX_TX_BURST_COUNT);
      sent, tx := sent + ptr[..ret], tx + ret;
      for i := ret to MAX_TX_BURST_COUNT
        modifies `freed
        invariant freed == old(freed) + ptr[ret..i]
      {
        assert ptr[ret..i + 1] == ptr[ret..i] + [ptr[i]];
        Assoc(old(freed), ptr[ret..i], [ptr[i]]);
        freed := freed + [ptr[i]];
      }
      assert ptr[ret..MAX_TX_BURST_COUNT] == ptr[ret..];
    }

    /** One pass of the while loop of pktgenHandler. */
    method Pass(turn: Turn)
      requires |turn.mbufs| <= MAX_TX_BURST_COUNT == ptr.Length
      requires Settled(drawn, sent, freed) && tx == |sent|
      modifies this, ptr
      ensures Settled(drawn, sent, freed) && tx == |sent| && drawn == old(drawn) + turn.mbufs
      ensures sent == old(sent) + Passed(turn)
    {
      var full := Allocate(turn.mbufs);
      if !full {
        SettledReversed(old(drawn), old(sent), old(freed), turn.mbufs);
        return;
      }
      ghost var n := Min(turn.taken, MAX_TX_BURST_COUNT);
      Transmit(turn.taken);
      SettledExtend(old(drawn), old(sent), old(freed), turn.mbufs[..n], turn.mbufs[n..]);
      assert turn.mbufs[..n] + turn.mbufs[n..] == turn.mbufs;
    }

    /** The handler up to the signal that stops it at a loop head. */
    method Run(turns: seq<Turn>)
      requires forall i :: 0 <= i < |turns| ==> |turns[i].mbufs| <= MAX_TX_BURST_COUNT
      requires ptr.Length == MAX_TX_BURST_COUNT && drawn == sent == freed == [] && tx == 0
      modifies this, ptr
      ensures Settled(drawn, sent, freed) && tx == |sent|
      ensures drawn == Drawn(turns) && sent == Sent(turns)
    {
      assert Settled(drawn, sent, freed);
      assert turns[..0] == [];
      for i := 0 to |turns|
        invariant Settled(drawn, sent, freed) && tx == |sent|
        invariant drawn == Drawn(turns[..i]) && sent == Sent(turns[..i])
      {
        Pass(turns[i]);
        assert turns[..i + 1][..i] == turns[..i];
      }
      assert turns[..|turns|] == turns;
    }
  }

  /** What a turn puts on the wire: nothing unless the burst is full. */
  function Passed(turn: Turn): seq<Mbuf>
    requires |turn.mbufs| <= MAX_TX_BURST_COUNT
  {
    if |turn.mbufs| < MAX_TX_BURST_COUNT then [] else turn.mbufs[..Min(turn.taken, MAX_TX_BURST_COUNT)]
  }

  function Drawn(turns: seq<Turn>): seq<Mbuf> {
    if turns == [] then [] else Drawn(turns[..|turns| - 1]) + turns[|turns| - 1].mbufs
  }

  function Sent(turns: seq<Turn>): seq<Mbuf>
    requires forall i :: 0 <= i < |turns| ==> |turns[i].mbufs| <= MAX_TX_BURST_COUNT
  {
    if turns == [] then [] else Sent(turns[..|turns| - 1]) + Passed(turns[|turns| - 1])
  }
}
