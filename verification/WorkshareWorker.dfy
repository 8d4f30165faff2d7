/**
 The secondary's worker (lcore_fifoTransmit, primary-secondary/primarysecondary-workshare/main.c): take up to
 eight packets from the ring, hand them to the port of the first, free what the port does not take.
 */
module WorkshareWorker {
  import opened Arithmetic
  import opened Sequences

  const BURST: nat := 8

  datatype Mbuf = Mbuf(id: nat, port: nat)

  /** A packet on the wire and the port it left by. */
  datatype Sent = Sent(mbuf: Mbuf, via: nat)

  function Through(batch: seq<Mbuf>, port: nat): (s: seq<Sent>)
    ensures |s| == |batch|
  {
    if batch == [] then [] else [Sent(batch[0], port)] + Through(batch[1..], port)
  }

  function Mbufs(wire: seq<Sent>): (s: seq<Mbuf>)
    ensures |s| == |wire|
  {
    if wire == [] then [] else [wire[0].mbuf] + Mbufs(wire[1..])
  }

  lemma {:induction false} MbufsConcat(a: seq<Sent>, b: seq<Sent>)
    ensures Mbufs(a + b) == Mbufs(a) + Mbufs(b)
  {
    if a == [] {
      assert a + b == b;
    } else {
      assert (a + b)[1..] == a[1..] + b;
      MbufsConcat(a[1..], b);
    }
  }

  lemma {:induction false} MbufsThrough(batch: seq<Mbuf>, port: nat)
    ensures Mbufs(Through(batch, port)) == batch
  {
    if batch != [] {
      MbufsThrough(batch[1..], port);
      assert Through(batch, port)[1..] == Through(batch[1..], port);
    }
  }

  lemma {:induction false} ThroughAt(batch: seq<Mbuf>, port: nat, i: nat)
    requires i < |batch|
    ensures Through(batch, port)[i] == Sent(batch[i], port)
  {
    if i > 0 {
      ThroughAt(batch[1..], port, i - 1);
    }
  }

  /** A batch leaves by the ports its packets name exactly if they all name the port of the first. */
  lemma {:induction false} OwnPortIffUniform(batch: seq<Mbuf>)
    requires batch != []
    ensures ((forall i :: 0 <= i < |batch| ==>
               Through(batch, batch[0].port)[i].via == Through(batch, batch[0].port)[i].mbuf.port) <==>
             (forall i :: 0 <= i < |batch| ==> batch[i].port == batch[0].port))
  {
    var out := Through(batch, batch[0].port);
    forall i | 0 <= i < |batch| ensures out[i] == Sent(batch[i], batch[0].port) {
      ThroughAt(batch, batch[0].port, i);
    }
    if forall i :: 0 <= i < |batch| ==> out[i].via == out[i].mbuf.port {
      forall i | 0 <= i < |batch| ensures batch[i].port == batch[0].port {
        assert out[i].via == out[i].mbuf.port;
      }
    }
  }

  class Worker {
    var ring: seq<Mbuf>
    var taken: seq<Mbuf>
    var wire: seq<Sent>
    var freed: seq<Mbuf>
    var rxPkts: nat
    var txPkts: nat
    var drop: nat

    ghost predicate Valid()
      reads this
    {
      && rxPkts == |taken| && txPkts == |wire| && drop == |freed|
      && rxPkts == txPkts + drop
      && Settled(taken, Mbufs(wire), freed)
    }

    constructor (ring: seq<Mbuf>)
      ensures Valid() && this.ring == ring && taken == freed == [] && wire == []
    {
      this.ring := ring;
      taken, wire, freed, rxPkts, txPkts, drop := [], [], [], 0, 0, 0;
    }

    /** One turn of the loop: the ring yields what it has up to eight, the port accepts that many of them. */
    method Turn(accepted: nat)
      requires Valid()
      modifies this
      ensures Valid()
      ensures var batch := old(ring)[..Min(BURST, |old(ring)|)];
        var n := Min(accepted, |batch|);
        && ring == old(ring)[|batch|..] && taken == old(taken) + batch
        && wire == old(wire) + (if batch == [] then [] else Through(batch[..n], batch[0].port))
        && freed == old(freed) + batch[n..]
    {
      var ret := Min(BURST, |ring|);
      var ptr := ring[..ret];
      if ret > 0 {
        ring := ring[ret..];
        taken, rxPkts := taken + ptr, rxPkts + ret;
        var sent := Min(accepted, ret);
        wire, txPkts := wire + Through(ptr[..sent], ptr[0].port), txPkts + sent;
        if sent < ret {
          drop := drop + (ret - sent);
        }
        FreeFrom(ptr, sent);
        MbufsConcat(old(wire), Through(ptr[..sent], ptr[0].port));
        MbufsThrough(ptr[..sent], ptr[0].port);
        SettledExtend(old(taken), Mbufs(old(wire)), old(freed), ptr[..sent], ptr[sent..]);
        assert ptr[..sent] + ptr[sent..] == ptr;
      }
    }

    method FreeFrom(ptr: seq<Mbuf>, start: nat)
      requires start <= |ptr|
      modifies `freed
      ensures freed == old(freed) + ptr[start..]
    {
      for buf := start to |ptr|
        invariant freed == old(freed) + ptr[start..buf]
      {
        assert ptr[start..buf + 1] == ptr[start..buf] + [ptr[buf]];
        Assoc(old(freed), ptr[start..buf], [ptr[buf]]);
        freed := freed + [ptr[buf]];
      }
      assert ptr[start..|ptr|] == ptr[start..];
    }
  }
}
