/**
 Set-up of l2fwd (nogdb-threadtrace/main.c): pairing of the enabled ports in one pass, and greedy
 distribution of the ports over the lcores.
 */
module L2fwdSetup {
  import opened Bits
  import opened Sequences

  const RTE_MAX_ETHPORTS: nat := 32

  /* ---------------------------------------------------------------- pairing */

  predicate EnabledPort(mask: nat, n: nat, p: nat) {
    p < n && Bit(mask, p)
  }

  /** Parity by counting, so that the proofs never divide. */
  predicate Odd(r: nat) {
    r > 0 && !Odd(r - 1)
  }

  lemma {:induction false} OddIsRemainder(r: nat)
    ensures Odd(r) <==> r % 2 == 1
  {
    if r > 0 {
      OddIsRemainder(r - 1);
    }
  }

  /** Port p of even rank is paired with the next enabled port, of odd rank with the previous one; the
      last port of an odd number is its own destination. */
  ghost predicate PairedWith(mask: nat, n: nat, p: nat, d: nat) {
    var r := Rank(mask, p);
    && EnabledPort(mask, n, d)
    && (if Odd(r) then Rank(mask, d) == r - 1
        else if r + 1 < Rank(mask, n) then Rank(mask, d) == r + 1
        else d == p)
  }

  ghost predicate Paired(mask: nat, n: nat, dst: seq<nat>) {
    && n <= |dst|
    && forall p :: 0 <= p < n && Bit(mask, p) ==> PairedWith(mask, n, p, dst[p])
  }

  /** The state of the pairing loop before port i: open says that the enabled port last still waits for
      a partner; all other enabled ports below i have theirs. */
  ghost predicate PairedUpTo(mask: nat, i: nat, open: bool, last: nat, dst: seq<nat>) {
    && i <= |dst| && open == Odd(Rank(mask, i))
    && (open ==> EnabledPort(mask, i, last) && Rank(mask, last) + 1 == Rank(mask, i))
    && (forall p :: 0 <= p < i && Bit(mask, p) && !(open && p == last) ==> PairedWith(mask, i, p, dst[p]))
    && (forall p :: 0 <= p < |dst| && !EnabledPort(mask, i, p) ==> dst[p] == 0)
  }

  /** A pair stays a pair when the next port is looked at, unless its first half still waits. */
  lemma {:induction false} PairStays(mask: nat, i: nat, p: nat, d: nat)
    requires PairedWith(mask, i, p, d) && (Odd(Rank(mask, p)) || Rank(mask, p) + 1 < Rank(mask, i))
    ensures PairedWith(mask, i + 1, p, d)
  {
  }

  lemma {:induction false} NoneWaits(mask: nat, i: nat, open: bool, last: nat, dst: seq<nat>, p: nat)
    requires PairedUpTo(mask, i, open, last, dst) && p < i && Bit(mask, p) && !(open && p == last)
    ensures Odd(Rank(mask, p)) || Rank(mask, p) + 1 < Rank(mask, i)
  {
    RankMonotone(mask, p, i);
    if Rank(mask, p) + 1 == Rank(mask, i) && open {
      RankInjective(mask, p, last);
    }
  }

  lemma {:induction false} SkipDisabled(mask: nat, i: nat, open: bool, last: nat, dst: seq<nat>)
    requires PairedUpTo(mask, i, open, last, dst) && i < |dst| && !Bit(mask, i)
    ensures PairedUpTo(mask, i + 1, open, last, dst)
  {
    forall p | 0 <= p < i + 1 && Bit(mask, p) && !(open && p == last) ensures PairedWith(mask, i + 1, p, dst[p]) {
      NoneWaits(mask, i, open, last, dst, p);
      PairStays(mask, i, p, dst[p]);
    }
  }

  lemma {:induction false} OpenPair(mask: nat, i: nat, last: nat, dst: seq<nat>)
    requires PairedUpTo(mask, i, false, last, dst) && i < |dst| && Bit(mask, i)
    ensures PairedUpTo(mask, i + 1, true, i, dst)
  {
    forall p | 0 <= p < i + 1 && Bit(mask, p) && p != i ensures PairedWith(mask, i + 1, p, dst[p]) {
      NoneWaits(mask, i, false, last, dst, p);
      PairStays(mask, i, p, dst[p]);
    }
  }

  lemma {:induction false} ClosePair(mask: nat, i: nat, last: nat, dst: seq<nat>, after: seq<nat>)
    requires PairedUpTo(mask, i, true, last, dst) && i < |dst| && Bit(mask, i)
    requires after == dst[i := last][last := i]
    ensures PairedUpTo(mask, i + 1, false, last, after)
  {
    forall p | 0 <= p < i + 1 && Bit(mask, p) ensures PairedWith(mask, i + 1, p, after[p]) {
      if p != i && p != last {
        NoneWaits(mask, i, true, last, dst, p);
        PairStays(mask, i, p, dst[p]);
      }
    }
  }

  /** After the last port: a port still waiting is paired with itself. */
  lemma {:induction false} AllPaired(mask: nat, n: nat, open: bool, last: nat, dst: seq<nat>, after: seq<nat>)
    requires PairedUpTo(mask, n, open, last, dst)
    requires after == if open then dst[last := last] else dst
    ensures Paired(mask, n, after)
  {
    forall p | 0 <= p < n && Bit(mask, p) ensures PairedWith(mask, n, p, after[p]) {
      if open && p == last {
        assert !Odd(Rank(mask, p));
      }
    }
  }

  /** One turn of the pairing loop. */
  method PairPort(mask: nat, portid: nat, dst: array<nat>, lastPort: nat, nbPortsInMask: nat)
    returns (last: nat, count: nat)
    requires portid < dst.Length && nbPortsInMask == Rank(mask, portid)
    requires PairedUpTo(mask, portid, Odd(nbPortsInMask), lastPort, dst[..])
    modifies dst
    ensures count == Rank(mask, portid + 1) && PairedUpTo(mask, portid + 1, Odd(count), last, dst[..])
  {
    last, count := lastPort, nbPortsInMask;
    if !Bit(mask, portid) {
      SkipDisabled(mask, portid, Odd(nbPortsInMask), lastPort, dst[..]);
      return;
    }
    OddIsRemainder(nbPortsInMask);
    ghost var before := dst[..];
    if nbPortsInMask % 2 == 1 {
      dst[portid] := lastPort;
      dst[lastPort] := portid;
      ClosePair(mask, portid, lastPort, before, dst[..]);
    } else {
      last := portid;
      OpenPair(mask, portid, lastPort, before);
    }
    count := nbPortsInMask + 1;
  }

  method ResetDst(dst: array<nat>)
    modifies dst
    ensures forall p :: 0 <= p < dst.Length ==> dst[p] == 0
  {
    for i := 0 to dst.Length
      invariant forall p :: 0 <= p < i ==> dst[p] == 0
    {
      dst[i] := 0;
    }
  }

  lemma {:induction false} NothingPaired(mask: nat, dst: seq<nat>)
    requires forall p :: 0 <= p < |dst| ==> dst[p] == 0
    ensures PairedUpTo(mask, 0, false, 0, dst)
  {
  }

  /** The port left over, if their number is odd, is its own destination. */
  method CloseLast(mask: nat, n: nat, dst: array<nat>, lastPort: nat, nbPortsInMask: nat)
    requires PairedUpTo(mask, n, Odd(nbPortsInMask), lastPort, dst[..])
    modifies dst
    ensures Paired(mask, n, dst[..])
    ensures forall p :: 0 <= p < dst.Length && !EnabledPort(mask, n, p) ==> dst[p] == 0
  {
    OddIsRemainder(nbPortsInMask);
    ghost var before := dst[..];
    if nbPortsInMask % 2 == 1 {
      dst[lastPort] := lastPort;
    }
    AllPaired(mask, n, Odd(nbPortsInMask), lastPort, before, dst[..]);
  }

  /** The pairing loop of main. */
  method PairPorts(mask: nat, n: nat, dst: array<nat>) returns (nbPortsInMask: nat)
    requires n <= dst.Length == RTE_MAX_ETHPORTS
    modifies dst
    ensures Paired(mask, n, dst[..]) && nbPortsInMask == Rank(mask, n)
    ensures forall p :: 0 <= p < dst.Length && !EnabledPort(mask, n, p) ==> dst[p] == 0
  {
    ResetDst(dst);
    var lastPort: nat := 0;
    nbPortsInMask := 0;
    NothingPaired(mask, dst[..]);
    for portid := 0 to n
      invariant nbPortsInMask == Rank(mask, portid)
      invariant PairedUpTo(mask, portid, Odd(nbPortsInMask), lastPort, dst[..])
    {
      lastPort, nbPortsInMask := PairPort(mask, portid, dst, lastPort, nbPortsInMask);
    }
    CloseLast(mask, n, dst, lastPort, nbPortsInMask);
  }

  /** Destinations by rank: even ranks up, odd ranks down, an unpaired last one in place. */
  lemma {:induction false} PartnerRank(mask: nat, n: nat, p: nat, d: nat)
    requires EnabledPort(mask, n, p) && PairedWith(mask, n, p, d)
    ensures Rank(mask, p) < Rank(mask, n) && Rank(mask, d) < Rank(mask, n)
    ensures d == p <==> !Odd(Rank(mask, p)) && Rank(mask, p) + 1 == Rank(mask, n)
    ensures d != p ==> Rank(mask, d) == (if Odd(Rank(mask, p)) then Rank(mask, p) - 1 else Rank(mask, p) + 1)
  {
    RankMonotone(mask, p, n);
    RankMonotone(mask, d, n);
  }

  /** The pairing is an involution on the enabled ports without fixed points, except that the last of
      an odd number of ports is fixed. */
  lemma {:induction false} PairingIsInvolution(mask: nat, n: nat, dst: seq<nat>, p: nat)
    requires Paired(mask, n, dst) && EnabledPort(mask, n, p)
    ensures EnabledPort(mask, n, dst[p]) && dst[dst[p]] == p
    ensures dst[p] == p <==> Odd(Rank(mask, n)) && Rank(mask, p) == Rank(mask, n) - 1
  {
    var d := dst[p];
    PartnerRank(mask, n, p, d);
    PartnerRank(mask, n, d, dst[d]);
    if d != p {
      RankInjective(mask, dst[d], p);
    }
  }

  /** Partners are neighbours: no enabled port lies between a port and its destination. */
  lemma {:induction false} PartnersAreNeighbours(mask: nat, n: nat, dst: seq<nat>, p: nat, q: nat)
    requires Paired(mask, n, dst) && EnabledPort(mask, n, p)
    requires p < q < dst[p] || dst[p] < q < p
    ensures !Bit(mask, q)
  {
    var d := dst[p];
    PartnerRank(mask, n, p, d);
    var lo, hi := if p < d then p else d, if p < d then d else p;
    MorePorts(mask, lo, q);
    if Bit(mask, q) {
      MorePorts(mask, q, hi);
    }
  }

  /** Below the lower port of a pair there is an even number of enabled ports. */
  lemma {:induction false} PairsStartEven(mask: nat, n: nat, dst: seq<nat>, p: nat)
    requires Paired(mask, n, dst) && EnabledPort(mask, n, p)
    ensures Rank(mask, if dst[p] < p then dst[p] else p) % 2 == 0
  {
    var d := dst[p];
    PartnerRank(mask, n, p, d);
    OddIsRemainder(Rank(mask, p));
    if d < p {
      RankMonotone(mask, d, p);
    } else if p < d {
      RankMonotone(mask, p, d);
    }
  }

  /* ---------------------------------------------------------------- lcore assignment */

  function EnabledPorts(mask: nat, n: nat): seq<nat> {
    if n == 0 then [] else EnabledPorts(mask, n - 1) + (if Bit(mask, n - 1) then [n - 1] else [])
  }

  /** Enabled lcores among the first k. */
  function NumLcores(enabled: seq<bool>, k: nat): nat
    requires k <= |enabled|
  {
    if k == 0 then 0 else NumLcores(enabled, k - 1) + (if enabled[k - 1] then 1 else 0)
  }

  /** All ports in port order over the lists, no list beyond the quota, nothing on disabled lcores. */
  ghost predicate Assigned(mask: nat, n: nat, enabled: seq<bool>, quota: nat, lists: seq<seq<nat>>) {
    && |lists| == |enabled|
    && Flatten(lists) == EnabledPorts(mask, n)
    && forall l :: 0 <= l < |lists| ==> |lists[l]| <= (if enabled[l] then quota else 0)
  }

  /** The state of the loop with lcore rx being filled: those before are full, those after empty. */
  ghost predicate FilledUpTo(enabled: seq<bool>, quota: nat, lists: seq<seq<nat>>, rx: nat) {
    && |lists| == |enabled| && rx < |lists|
    && (forall l :: 0 <= l < rx ==> |lists[l]| == (if enabled[l] then quota else 0))
    && |lists[rx]| <= (if enabled[rx] then quota else 0)
    && (forall l :: rx < l < |lists| ==> lists[l] == [])
  }

  lemma {:induction false} FullLength(enabled: seq<bool>, quota: nat, lists: seq<seq<nat>>, k: nat)
    requires k <= |lists| == |enabled|
    requires forall l :: 0 <= l < k ==> |lists[l]| <= (if enabled[l] then quota else 0)
    ensures |Flatten(lists[..k])| <= quota * NumLcores(enabled, k)
    ensures (forall l :: 0 <= l < k ==> |lists[l]| == (if enabled[l] then quota else 0)) ==>
      |Flatten(lists[..k])| == quota * NumLcores(enabled, k)
  {
    if k > 0 {
      FullLength(enabled, quota, lists, k - 1);
      assert lists[..k] == lists[..k - 1] + [lists[k - 1]];
      FlattenConcat(lists[..k - 1], [lists[k - 1]]);
      FlattenOne(lists[k - 1]);
      QuotaStep(quota, NumLcores(enabled, k - 1));
    }
  }

  lemma {:induction false} QuotaStep(quota: nat, k: nat)
    ensures quota * (k + 1) == quota * k + quota
  {
  }

  lemma {:induction false} EnabledCount(mask: nat, n: nat)
    ensures |EnabledPorts(mask, n)| == Rank(mask, n)
  {
    if n > 0 {
      EnabledCount(mask, n - 1);
    }
  }

  /** Appending to the list being filled appends to the line of all lists. */
  lemma {:induction false} AppendPort(enabled: seq<bool>, quota: nat, lists: seq<seq<nat>>, rx: nat, p: nat)
    requires FilledUpTo(enabled, quota, lists, rx)
    ensures Flatten(lists[rx := lists[rx] + [p]]) == Flatten(lists) + [p]
  {
    FlattenAround(lists, rx);
    FlattenUpdate(lists, rx, lists[rx] + [p]);
    FlattenEmpty(lists[rx + 1..]);
    Assoc(Flatten(lists[..rx]), lists[rx], [p]);
  }

  /** All lcores up to the last are used up. */
  lemma {:induction false} AllFull(enabled: seq<bool>, quota: nat, lists: seq<seq<nat>>, rx: nat)
    requires FilledUpTo(enabled, quota, lists, rx) && rx == |lists| - 1
    requires !enabled[rx] || |lists[rx]| == quota
    ensures |Flatten(lists)| == quota * NumLcores(enabled, |enabled|)
  {
    FullLength(enabled, quota, lists, |lists|);
    assert lists[..|lists|] == lists;
  }

  lemma {:induction false} MorePorts(mask: nat, i: nat, n: nat)
    requires i < n && Bit(mask, i)
    ensures Rank(mask, i) < Rank(mask, n)
  {
    RankMonotone(mask, i, n);
  }

  /** The search for an lcore with room; it gives up when all lcores are used up. */
  method NextLcore(enabled: seq<bool>, quota: nat, lists: array<seq<nat>>, rx: nat) returns (ok: bool, next: nat)
    requires FilledUpTo(enabled, quota, lists[..], rx)
    ensures FilledUpTo(enabled, quota, lists[..], next)
    ensures ok ==> enabled[next] && |lists[next]| < quota
    ensures !ok ==> |Flatten(lists[..])| == quota * NumLcores(enabled, |enabled|)
  {
    ok, next := true, rx;
    while !enabled[next] || |lists[next]| == quota
      invariant FilledUpTo(enabled, quota, lists[..], next)
      decreases lists.Length - next
    {
      if next == lists.Length - 1 {
        AllFull(enabled, quota, lists[..], next);
        return false, next;
      }
      next := next + 1;
    }
  }

  /** A port goes to an lcore with room. */
  lemma {:induction false} FillNext(enabled: seq<bool>, quota: nat, lists: seq<seq<nat>>, rx: nat, p: nat)
    requires FilledUpTo(enabled, quota, lists, rx) && enabled[rx] && |lists[rx]| < quota
    ensures FilledUpTo(enabled, quota, lists[rx := lists[rx] + [p]], rx)
  {
  }

  /** The lcore configuration loop of main; the result is whether there were enough cores. An lcore gets ports
      only when the enabled ones before it are full. */
  method AssignPorts(mask: nat, n: nat, enabled: seq<bool>, quota: nat, lists: array<seq<nat>>) returns (ok: bool)
    requires lists.Length == |enabled| > 0 && forall l :: 0 <= l < lists.Length ==> lists[l] == []
    modifies lists
    ensures ok ==> Assigned(mask, n, enabled, quota, lists[..])
    ensures ok ==> forall k, l :: 0 <= k < l < lists.Length && enabled[k] && lists[l] != [] ==> |lists[k]| == quota
    ensures ok <==> Rank(mask, n) <= quota * NumLcores(enabled, |enabled|)
  {
    var rx := 0;
    FlattenEmpty(lists[..]);
    for portid := 0 to n
      invariant FilledUpTo(enabled, quota, lists[..], rx)
      invariant Flatten(lists[..]) == EnabledPorts(mask, portid)
    {
      if Bit(mask, portid) {
        ok, rx := NextLcore(enabled, quota, lists, rx);
        if !ok {
          EnabledCount(mask, portid);
          MorePorts(mask, portid, n);
          return false;
        }
        AppendPort(enabled, quota, lists[..], rx, portid);
        FillNext(enabled, quota, lists[..], rx, portid);
        ghost var before := lists[..];
        lists[rx] := lists[rx] + [portid];
        assert lists[..] == before[rx := before[rx] + [portid]];
      }
    }
    AllAssigned(mask, n, enabled, quota, lists[..], rx);
    ok := true;
  }

  lemma {:induction false} AllAssigned(mask: nat, n: nat, enabled: seq<bool>, quota: nat, lists: seq<seq<nat>>, rx: nat)
    requires FilledUpTo(enabled, quota, lists, rx) && Flatten(lists) == EnabledPorts(mask, n)
    ensures Assigned(mask, n, enabled, quota, lists)
    ensures Rank(mask, n) <= quota * NumLcores(enabled, |enabled|)
  {
    EnabledCount(mask, n);
    FullLength(enabled, quota, lists, |lists|);
    assert lists[..|lists|] == lists;
  }

  lemma {:induction false} EnabledOnce(mask: nat, n: nat, p: nat)
    ensures Count(EnabledPorts(mask, n), p) == (if EnabledPort(mask, n, p) then 1 else 0)
  {
    if n > 0 {
      EnabledOnce(mask, n - 1, p);
      if Bit(mask, n - 1) {
        var last: nat := n - 1;
        CountConcat(EnabledPorts(mask, n - 1), [last], p);
        CountOne(last, p);
      } else {
        assert EnabledPorts(mask, n) == EnabledPorts(mask, n - 1);
      }
    }
  }

  lemma {:induction false} CountInFlatten<T>(ss: seq<seq<T>>, x: T)
    ensures CountIn(ss, x) == Count(Flatten(ss), x)
  {
    if ss != [] {
      CountInFlatten(ss[1..], x);
      CountConcat(ss[0], Flatten(ss[1..]), x);
    }
  }

  /** Every enabled port is in exactly one list, and in it once; no other port is in any. */
  lemma {:induction false} OneLcorePerPort(
      mask: nat, n: nat, enabled: seq<bool>, quota: nat, lists: seq<seq<nat>>, p: nat)
    requires Assigned(mask, n, enabled, quota, lists)
    ensures CountIn(lists, p) == (if EnabledPort(mask, n, p) then 1 else 0)
    ensures EnabledPort(mask, n, p) <==> exists l :: 0 <= l < |lists| && p in lists[l]
    ensures forall k, l :: 0 <= k < |lists| && 0 <= l < |lists| && p in lists[k] && p in lists[l] ==> k == l
    ensures forall l :: 0 <= l < |lists| && p in lists[l] ==> enabled[l]
  {
    CountInFlatten(lists, p);
    EnabledOnce(mask, n, p);
    if k, l :| 0 <= k < l < |lists| && p in lists[k] && p in lists[l] {
      CountTwice(lists, p, k, l);
    }
    if EnabledPort(mask, n, p) {
      if forall l :: 0 <= l < |lists| ==> p !in lists[l] {
        CountInZero(lists, p);
      }
    } else if l :| 0 <= l < |lists| && p in lists[l] {
      CountInPositive(lists, p, l);
    }
  }

  lemma {:induction false} CountTwice<T>(ss: seq<seq<T>>, x: T, k: nat, l: nat)
    requires k < l < |ss| && x in ss[k] && x in ss[l]
    ensures CountIn(ss, x) >= 2
  {
    if k == 0 {
      CountIsMembership(ss[0], x);
      CountInPositive(ss[1..], x, l - 1);
    } else {
      CountTwice(ss[1..], x, k - 1, l - 1);
    }
  }
}
