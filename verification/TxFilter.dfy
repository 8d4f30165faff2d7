/**
 The transmit callback that keeps away from the device the packets it hangs on (DPDK-i40eVF-TX-FIX.c):
 an in-place stable filter of the burst.
 */
module TxFilter {
  import opened Sequences

  /** id tells mbufs apart; tso is the flag PKT_TX_TCP_SEG */
  datatype Mbuf = Mbuf(id: nat, pktLen: nat, tso: bool, segs: nat, segSize: nat)

  /** The packets the device can take: at least 17 bytes and at most 8 segments; without segmentation
      offload at most 9728 bytes; with it at most 262144 bytes in segments of 256 to 9674 bytes. */
  predicate Safe(m: Mbuf) {
    && 17 <= m.pktLen <= (if m.tso then 262144 else 9728)
    && m.segs <= 8
    && (m.tso ==> 256 <= m.segSize <= 9674)
  }

  /** The tests of precheck_pkts, in their order. */
  predicate Rejected(m: Mbuf) {
    if m.pktLen < 17 then
      true
    else if !m.tso then
      m.segs > 8 || m.pktLen > 9728
    else
      m.segs > 8 || m.segSize < 256 || m.segSize > 9674 || m.pktLen > 262144
  }

  function Selected(ms: seq<Mbuf>, safe: bool): seq<Mbuf> {
    if ms == [] then [] else
      var n: nat := |ms| - 1;
      if Safe(ms[n]) == safe then Selected(ms[..n], safe) + [ms[n]] else Selected(ms[..n], safe)
  }

  lemma {:induction false} SelectedNext(ms: seq<Mbuf>, i: nat)
    requires i < |ms|
    ensures Selected(ms[..i + 1], true) == Selected(ms[..i], true) + (if Rejected(ms[i]) then [] else [ms[i]])
    ensures Selected(ms[..i + 1], false) == Selected(ms[..i], false) + (if Rejected(ms[i]) then [ms[i]] else [])
  {
    assert ms[..i + 1][..i] == ms[..i];
    assert Rejected(ms[i]) <==> !Safe(ms[i]);
  }

  /** precheck_pkts on the first n entries of the burst: the safe packets move to the front in their order,
      the others are freed in theirs, and no entry from the returned index on is written. */
  method PrecheckPkts(pkts: array<Mbuf>, n: nat) returns (kept: nat, freed: seq<Mbuf>)
    requires n <= pkts.Length
    modifies pkts
    ensures kept <= n && pkts[..kept] == Selected(old(pkts[..n]), true)
    ensures pkts[kept..] == old(pkts[kept..])
    ensures freed == Selected(old(pkts[..n]), false)
  {
    freed := [];
    if n == 0 {
      return 0, [];
    }
    ghost var was := pkts[..];
    var replace := new Mbuf[n];
    var i: nat, j: nat, k: nat := 0, 0, 0;
    while i < n
      invariant j <= i <= n && k <= i
      invariant pkts[..j] == Selected(was[..i], true)
      invariant forall x :: j <= x < pkts.Length ==> pkts[x] == was[x]
      invariant replace[..k] == Selected(was[..i], false)
    {
      SelectedNext(was, i);
      j, k := SortOne(pkts, replace, i, j, k);
      i := i + 1;
    }
    freed := FreeAll(replace, k);
    assert was[..n] == old(pkts[..n]);
    return j, freed;
  }

  /** The body of the loop: the packet at i is kept or put aside. */
  method SortOne(pkts: array<Mbuf>, replace: array<Mbuf>, i: nat, j: nat, k: nat) returns (j1: nat, k1: nat)
    requires j <= i < pkts.Length && k < replace.Length && pkts != replace
    modifies pkts, replace
    ensures var m := old(pkts[i]);
      && j1 == (if Rejected(m) then j else j + 1) && k1 == (if Rejected(m) then k + 1 else k)
      && pkts[..j1] == old(pkts[..j]) + (if Rejected(m) then [] else [m])
      && replace[..k1] == old(replace[..k]) + (if Rejected(m) then [m] else [])
    ensures forall x :: j1 <= x < pkts.Length ==> pkts[x] == old(pkts[x])
  {
    var ptr := pkts[i];
    j1, k1 := j, k;
    if Rejected(ptr) {
      replace[k] := ptr;
      k1 := k + 1;
    } else {
      pkts[j] := ptr;
      j1 := j + 1;
    }
  }

  method FreeAll(replace: array<Mbuf>, k: nat) returns (freed: seq<Mbuf>)
    requires k <= replace.Length
    ensures freed == replace[..k]
  {
    freed := [];
    for i := 0 to k
      invariant freed == replace[..i]
    {
      freed := freed + [replace[i]];
    }
  }

  /** What is kept is safe, what is freed is not, and both keep the order of the burst. */
  lemma {:induction false} SelectedInOrder(ms: seq<Mbuf>, safe: bool)
    ensures IsSubsequence(Selected(ms, safe), ms)
    ensures forall i :: 0 <= i < |Selected(ms, safe)| ==> Safe(Selected(ms, safe)[i]) == safe
    decreases |ms|
  {
    if ms != [] {
      var n: nat := |ms| - 1;
      SelectedInOrder(ms[..n], safe);
      SubsequenceSnoc(Selected(ms[..n], safe), ms[..n], ms[n]);
      assert ms == ms[..n] + [ms[n]];
    }
  }

  /** Each packet of the burst is either kept or freed, as often as it was there. */
  lemma {:induction false} KeptOrFreed(ms: seq<Mbuf>, m: Mbuf)
    ensures Count(Selected(ms, Safe(m)), m) == Count(ms, m)
    ensures Count(Selected(ms, !Safe(m)), m) == 0
    decreases |ms|
  {
    if ms != [] {
      var n: nat := |ms| - 1;
      KeptOrFreed(ms[..n], m);
      assert ms == ms[..n] + [ms[n]];
      CountConcat(ms[..n], [ms[n]], m);
      CountConcat(Selected(ms[..n], Safe(m)), [ms[n]], m);
      CountConcat(Selected(ms[..n], !Safe(m)), [ms[n]], m);
      CountOne(ms[n], m);
    }
  }

  /** A burst passes untouched exactly if every packet of it is safe. */
  lemma {:induction false} UntouchedIffAllSafe(ms: seq<Mbuf>)
    ensures |Selected(ms, true)| <= |ms|
    ensures Selected(ms, true) == ms <==> forall i :: 0 <= i < |ms| ==> Safe(ms[i])
    decreases |ms|
  {
    if ms != [] {
      var n: nat := |ms| - 1;
      UntouchedIffAllSafe(ms[..n]);
      assert ms == ms[..n] + [ms[n]];
      if Safe(ms[n]) {
        assert forall i :: 0 <= i < n ==> ms[..n][i] == ms[i];
        if Selected(ms, true) == ms {
          assert Selected(ms[..n], true) == ms[..n];
        }
      }
    }
  }
}
