/**
 A statistics counter that several lcores increment without a lock or an atomic instruction: the increment
 is a load into a register and a store of the successor, and another store may come between the two.
 */
module SharedCounter {

  /** value is what the memory holds. stores is the history of how many stores there have been, disturbed
      whether any of them came after another store since its own load. */
  datatype Counter = Counter(value: nat, stores: nat, disturbed: bool)

  /** What an lcore has loaded, and how many stores there had been by then. */
  datatype Register = Register(value: nat, stamp: nat)

  function Zero(): Counter {
    Counter(0, 0, false)
  }

  function Read(c: Counter): Register {
    Register(c.value, c.stores)
  }

  function Write(c: Counter, r: Register): Counter {
    Counter(r.value + 1, c.stores + 1, c.disturbed || r.stamp != c.stores)
  }

  /** The value never runs ahead of the increments made, and equals their number exactly if none of them
      was disturbed. */
  ghost predicate CounterOk(c: Counter) {
    c.value <= c.stores && (c.value == c.stores <==> !c.disturbed)
  }

  ghost predicate RegisterOk(r: Register, c: Counter) {
    r.value <= r.stamp <= c.stores && (r.stamp == c.stores ==> r.value == c.value)
  }

  lemma {:induction false} WriteKeepsCount(c: Counter, r: Register, other: Register)
    requires CounterOk(c) && RegisterOk(r, c) && RegisterOk(other, c)
    ensures CounterOk(Write(c, r)) && RegisterOk(other, Write(c, r))
  {
  }

  /** A disturbed increment is never made good by later ones. */
  lemma {:induction false} LossIsFinal(c: Counter, r: Register)
    requires CounterOk(c) && RegisterOk(r, c) && c.value < c.stores
    ensures Write(c, r).value < Write(c, r).stores
  {
  }
}
