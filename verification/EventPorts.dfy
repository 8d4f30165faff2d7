/**
 The enqueue side of an event port. The device accepts some prefix of every burst it is offered; how
 much it is willing to accept at each coming call is the sequence grants, unknown to the program.
 An empty grants means the device is not observed any further.
 */
module EventPorts {
  import opened Arithmetic
  import opened EventDev

  /** How many of k events get accepted when the remainder is offered again after every call. */
  function AcceptedOf(grants: seq<nat>, k: nat): (n: nat)
    ensures n <= k
  {
    if k == 0 || grants == [] then 0
    else Min(grants[0], k) + AcceptedOf(grants[1..], k - Min(grants[0], k))
  }

  function Offered(grants: seq<nat>): nat {
    if grants == [] then 0 else grants[0] + Offered(grants[1..])
  }

  /** The whole burst gets through exactly when the accepted prefixes can add up to its length. */
  lemma {:induction false} AcceptedIsOffered(grants: seq<nat>, k: nat)
    ensures AcceptedOf(grants, k) == Min(Offered(grants), k)
  {
    if k > 0 && grants != [] {
      AcceptedIsOffered(grants[1..], k - Min(grants[0], k));
    }
  }

  class EventPort {
    var grants: seq<nat>
    var accepted: seq<Event>

    constructor (grants: seq<nat>)
      ensures this.grants == grants && accepted == []
    {
      this.grants := grants;
      accepted := [];
    }

    /** One device call: a prefix of events[from..from + count] is accepted. */
    method EnqueueBurst(events: array<Event>, from: nat, count: nat) returns (n: nat)
      requires from + count <= events.Length && grants != []
      modifies this
      ensures n == Min(old(grants)[0], count)
      ensures grants == old(grants)[1..]
      ensures accepted == old(accepted) + events[from..from + n]
    {
      n := Min(grants[0], count);
      accepted := accepted + events[from..from + n];
      grants := grants[1..];
    }

    /** Offer the first count events, then whatever is left of them, until all are accepted: the
        loop of worker_event_enqueue_burst, written out inline in worker_generic_burst. */
    method EnqueueAll(events: array<Event>, count: nat) returns (n: nat)
      requires count <= events.Length && grants != []
      modifies this
      ensures n == AcceptedOf(old(grants), count)
      ensures accepted == old(accepted) + events[..n]
      ensures n < count ==> grants == []
    {
      n := EnqueueBurst(events, 0, count);
      while n < count && grants != []
        invariant n <= count
        invariant n + AcceptedOf(grants, count - n) == AcceptedOf(old(grants), count)
        invariant accepted == old(accepted) + events[..n]
        decreases |grants|
      {
        var more := EnqueueBurst(events, n, count - n);
        assert events[..n] + events[n..n + more] == events[..n + more];
        n := n + more;
      }
    }
  }
}
