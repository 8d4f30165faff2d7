/**
 What the launch loops over a port mask and a core mask produce: ports and cores paired by rank.
 */
module Launches {
  import opened Bits

  datatype Launch = Launch(port: nat, core: nat)

  /** The j-th launch pairs the port of rank j with the core of rank j. */
  ghost predicate ByRank(ports: nat, cores: nat, launches: seq<Launch>) {
    forall j :: 0 <= j < |launches| ==>
      && Bit(ports, launches[j].port) && Rank(ports, launches[j].port) == j
      && Bit(cores, launches[j].core) && Rank(cores, launches[j].core) == j
  }

  lemma {:induction false} ByRankSnoc(ports: nat, cores: nat, launches: seq<Launch>, port: nat, core: nat)
    requires ByRank(ports, cores, launches)
    requires Bit(ports, port) && Rank(ports, port) == |launches|
    requires Bit(cores, core) && Rank(cores, core) == |launches|
    ensures ByRank(ports, cores, launches + [Launch(port, core)])
    ensures Rank(ports, port + 1) == Rank(cores, core + 1) == |launches| + 1
  {
  }

  ghost predicate Increasing(launches: seq<Launch>) {
    forall i, j :: 0 <= i < j < |launches| ==>
      launches[i].port < launches[j].port && launches[i].core < launches[j].core
  }

  lemma {:induction false} ByRankIncreases(pm: nat, cm: nat, launches: seq<Launch>)
    requires ByRank(pm, cm, launches)
    ensures Increasing(launches)
  {
    forall i, j | 0 <= i < j < |launches|
      ensures launches[i].port < launches[j].port && launches[i].core < launches[j].core
    {
      if launches[j].port <= launches[i].port {
        RankMonotone(pm, launches[j].port, launches[i].port);
      }
      if launches[j].core <= launches[i].core {
        RankMonotone(cm, launches[j].core, launches[i].core);
      }
    }
  }
}
