/**
 Facts about sequences of sequences that the protocol proofs share.

 A packet path is drawn as a conveyor: a sequence of segments, the segment nearest the exit first.
 Moving the front element of one segment to the back of the segment in front of it does not change
 the conveyor read as one line; deleting an element only shortens the line.
 */
module Sequences {

  datatype Option<+T> = None | Some(value: T)

  function Flatten<T>(ss: seq<seq<T>>): seq<T> {
    if ss == [] then [] else ss[0] + Flatten(ss[1..])
  }

  lemma {:induction false} Assoc<T>(a: seq<T>, b: seq<T>, d: seq<T>)
    ensures a + (b + d) == a + b + d
  {
  }

  lemma {:induction false} FlattenConcat<T>(a: seq<seq<T>>, b: seq<seq<T>>)
    ensures Flatten(a + b) == Flatten(a) + Flatten(b)
  {
    if a == [] {
      assert a + b == b;
    } else {
      FlattenConcat(a[1..], b);
      assert (a + b)[1..] == a[1..] + b && (a + b)[0] == a[0];
      Assoc(a[0], Flatten(a[1..]), Flatten(b));
    }
  }

  /** Cut the line around segment i. */
  lemma {:induction false} FlattenAround<T>(ss: seq<seq<T>>, i: nat)
    requires i < |ss|
    ensures Flatten(ss) == Flatten(ss[..i]) + ss[i] + Flatten(ss[i + 1..])
  {
    assert ss == ss[..i] + ss[i..];
    FlattenConcat(ss[..i], ss[i..]);
    assert ss[i..][0] == ss[i] && ss[i..][1..] == ss[i + 1..];
  }

  lemma {:induction false} FlattenUpdate<T>(ss: seq<seq<T>>, i: nat, x: seq<T>)
    requires i < |ss|
    ensures Flatten(ss[i := x]) == Flatten(ss[..i]) + x + Flatten(ss[i + 1..])
  {
    FlattenAround(ss[i := x], i);
    assert ss[i := x][..i] == ss[..i];
    assert ss[i := x][i + 1..] == ss[i + 1..];
  }

  lemma {:induction false} FlattenEmpty<T>(ss: seq<seq<T>>)
    requires forall i :: 0 <= i < |ss| ==> ss[i] == []
    ensures Flatten(ss) == []
  {
    if ss != [] {
      FlattenEmpty(ss[1..]);
    }
  }

  /** A line of at most one element fills at most one segment. */
  lemma {:induction false} FlattenSingle<T>(ss: seq<seq<T>>, i: nat, j: nat)
    requires i < |ss| && j < |ss| && i != j
    requires |Flatten(ss)| <= 1 && ss[i] != []
    ensures |ss[i]| == 1 && ss[j] == []
  {
    var lo, hi := if i < j then i else j, if i < j then j else i;
    FlattenAround(ss, lo);
    FlattenAround(ss[lo + 1..], hi - lo - 1);
  }

  /** after is before with x moved from the front of segment i+1 to the back of segment i. */
  ghost predicate Advances<T>(before: seq<seq<T>>, after: seq<seq<T>>, i: nat, x: T) {
    && i + 1 < |before| == |after|
    && before[i + 1] == [x] + after[i + 1]
    && after[i] == before[i] + [x]
    && forall j :: 0 <= j < |before| && j != i && j != i + 1 ==> before[j] == after[j]
  }

  lemma {:induction false} FlattenPair<T>(ss: seq<seq<T>>, i: nat)
    requires i + 1 < |ss|
    ensures Flatten(ss) == Flatten(ss[..i]) + (ss[i] + ss[i + 1]) + Flatten(ss[i + 2..])
  {
    assert ss == ss[..i] + ss[i..];
    FlattenConcat(ss[..i], ss[i..]);
    var t := ss[i..];
    assert t[0] == ss[i] && t[1..][0] == ss[i + 1] && t[1..][1..] == ss[i + 2..];
    Assoc(ss[i], ss[i + 1], Flatten(ss[i + 2..]));
    Assoc(Flatten(ss[..i]), ss[i] + ss[i + 1], Flatten(ss[i + 2..]));
  }

  lemma {:induction false} AdvanceKeepsLine<T>(before: seq<seq<T>>, after: seq<seq<T>>, i: nat, x: T)
    requires Advances(before, after, i, x)
    ensures Flatten(after) == Flatten(before)
  {
    FlattenPair(before, i);
    FlattenPair(after, i);
    assert before[..i] == after[..i] && before[i + 2..] == after[i + 2..];
    Assoc(before[i], [x], after[i + 1]);
  }

  /** a is obtained from b by deleting elements. */
  predicate IsSubsequence<T(==)>(a: seq<T>, b: seq<T>) {
    || a == []
    || (b != [] &&
        (|| IsSubsequence(a, b[..|b| - 1])
         || (a[|a| - 1] == b[|b| - 1] && IsSubsequence(a[..|a| - 1], b[..|b| - 1]))))
  }

  lemma {:induction false} SubsequenceReflexive<T>(a: seq<T>)
    ensures IsSubsequence(a, a)
  {
    if a != [] {
      SubsequenceReflexive(a[..|a| - 1]);
    }
  }

  lemma {:induction false} SubsequenceExtend<T>(a: seq<T>, b: seq<T>, xs: seq<T>)
    requires IsSubsequence(a, b)
    ensures IsSubsequence(a + xs, b + xs)
  {
    if xs == [] {
      assert a + xs == a && b + xs == b;
    } else {
      var m := |xs| - 1;
      SubsequenceExtend(a, b, xs[..m]);
      assert (a + xs)[..|a + xs| - 1] == a + xs[..m];
      assert (b + xs)[..|b + xs| - 1] == b + xs[..m];
    }
  }

  lemma {:induction false} SubsequenceSnoc<T>(a: seq<T>, b: seq<T>, x: T)
    requires IsSubsequence(a, b)
    ensures IsSubsequence(a, b + [x]) && IsSubsequence(a + [x], b + [x])
  {
    SubsequenceExtend(a, b, [x]);
    assert (b + [x])[..|b|] == b;
  }

  lemma {:induction false} SubsequenceDelete<T>(a: seq<T>, b: seq<T>, i: nat)
    requires i < |a| && IsSubsequence(a, b)
    ensures IsSubsequence(a[..i] + a[i + 1..], b)
    decreases |b|
  {
    var rest := b[..|b| - 1];
    var cut := a[..i] + a[i + 1..];
    if IsSubsequence(a, rest) {
      SubsequenceDelete(a, rest, i);
    } else if i == |a| - 1 {
      assert cut == a[..|a| - 1];
    } else {
      var short := a[..|a| - 1];
      SubsequenceDelete(short, rest, i);
      assert cut[..|cut| - 1] == short[..i] + short[i + 1..];
    }
  }

  /** Cutting a stretch out of a subsequence leaves a subsequence. */
  lemma {:induction false} SubsequenceCut<T>(a: seq<T>, x: seq<T>, b: seq<T>, line: seq<T>)
    requires IsSubsequence(a + (x + b), line)
    ensures IsSubsequence(a + b, line)
  {
    var whole := a + (x + b);
    if x == [] {
      assert whole == a + b;
    } else {
      SubsequenceDelete(whole, line, |a|);
      assert whole[..|a|] + whole[|a| + 1..] == a + (x[1..] + b);
      SubsequenceCut(a, x[1..], b, line);
    }
  }

  lemma {:induction false} SubsequencePrefix<T>(a: seq<T>, b: seq<T>, k: nat)
    requires k <= |a| && IsSubsequence(a, b)
    ensures IsSubsequence(a[..k], b)
    decreases |a| - k
  {
    if k < |a| {
      SubsequencePrefix(a, b, k + 1);
      SubsequenceDelete(a[..k + 1], b, k);
      assert a[..k + 1][..k] + a[..k + 1][k + 1..] == a[..k];
    } else {
      assert a[..k] == a;
    }
  }

  function Count<T(==)>(xs: seq<T>, x: T): nat {
    if xs == [] then 0 else (if xs[0] == x then 1 else 0) + Count(xs[1..], x)
  }

  lemma {:induction false} CountConcat<T>(a: seq<T>, b: seq<T>, x: T)
    ensures Count(a + b, x) == Count(a, x) + Count(b, x)
  {
    if a == [] {
      assert a + b == b;
    } else {
      CountConcat(a[1..], b, x);
      assert (a + b)[1..] == a[1..] + b && (a + b)[0] == a[0];
    }
  }

  lemma {:induction false} CountOne<T>(y: T, x: T)
    ensures Count([y], x) == (if x == y then 1 else 0)
  {
    assert [y][1..] == [];
  }

  lemma {:induction false} CountIsMembership<T>(xs: seq<T>, x: T)
    ensures Count(xs, x) > 0 <==> x in xs
  {
    if xs != [] {
      CountIsMembership(xs[1..], x);
    }
  }

  /** How often x stands in a table. */
  function CountIn<T(==)>(ss: seq<seq<T>>, x: T): nat {
    if ss == [] then 0 else Count(ss[0], x) + CountIn(ss[1..], x)
  }

  /** Replacing one row of a table exchanges exactly that row in every count. */
  lemma {:induction false} CountUpdate<T>(ss: seq<seq<T>>, i: nat, y: seq<T>, x: T)
    requires i < |ss|
    ensures CountIn(ss[i := y], x) == CountIn(ss, x) - Count(ss[i], x) + Count(y, x)
  {
    if i == 0 {
      assert ss[i := y][1..] == ss[1..];
    } else {
      CountUpdate(ss[1..], i - 1, y, x);
      assert ss[i := y][1..] == ss[1..][i - 1 := y];
    }
  }

  lemma {:induction false} CountInZero<T>(ss: seq<seq<T>>, x: T)
    requires forall i :: 0 <= i < |ss| ==> x !in ss[i]
    ensures CountIn(ss, x) == 0
  {
    if ss != [] {
      CountIsMembership(ss[0], x);
      CountInZero(ss[1..], x);
    }
  }

  lemma {:induction false} CountInPositive<T>(ss: seq<seq<T>>, x: T, i: nat)
    requires i < |ss| && x in ss[i]
    ensures CountIn(ss, x) > 0
  {
    if i == 0 {
      CountIsMembership(ss[0], x);
    } else {
      CountInPositive(ss[1..], x, i - 1);
    }
  }

  lemma {:induction false} Regroup<T>(a: seq<T>, x: seq<T>, b: seq<T>, d: seq<T>)
    requires a == [] || x == []
    ensures a + (x + b) + d == x + (a + b + d)
  {
  }

  /** Appending to the last segment appends to the line. */
  lemma {:induction false} FlattenLast<T>(ss: seq<seq<T>>, tt: seq<seq<T>>, x: seq<T>)
    requires |ss| == |tt| > 0
    requires forall i :: 0 <= i < |ss| - 1 ==> ss[i] == tt[i]
    requires tt[|ss| - 1] == ss[|ss| - 1] + x
    ensures Flatten(tt) == Flatten(ss) + x
  {
    var m := |ss| - 1;
    assert ss == ss[..m] + [ss[m]] && tt == ss[..m] + [tt[m]];
    FlattenConcat(ss[..m], [ss[m]]);
    FlattenConcat(ss[..m], [tt[m]]);
    FlattenOne(ss[m]);
    FlattenOne(tt[m]);
    Assoc(Flatten(ss[..m]), ss[m], x);
  }

  lemma {:induction false} FlattenOne<T>(x: seq<T>)
    ensures Flatten([x]) == x
  {
    assert [x][1..] == [];
  }

  function Reversed<T>(xs: seq<T>): seq<T> {
    if xs == [] then [] else Reversed(xs[1..]) + [xs[0]]
  }

  lemma {:induction false} CountReversed<T>(xs: seq<T>, x: T)
    ensures Count(Reversed(xs), x) == Count(xs, x)
  {
    if xs != [] {
      CountReversed(xs[1..], x);
      CountConcat(Reversed(xs[1..]), [xs[0]], x);
      CountOne(xs[0], x);
    }
  }

  lemma {:induction false} ReversedConcat<T>(xs: seq<T>, y: T)
    ensures Reversed(xs + [y]) == [y] + Reversed(xs)
  {
    if xs == [] {
      assert xs + [y] == [y] && [y][1..] == [];
    } else {
      assert (xs + [y])[1..] == xs[1..] + [y];
      ReversedConcat(xs[1..], y);
    }
  }

  /** Every element drawn was sent or freed, just as often as it was drawn: nothing is still held. */
  ghost predicate Settled<T(!new)>(drawn: seq<T>, sent: seq<T>, freed: seq<T>) {
    forall m: T :: Count(drawn, m) == Count(sent, m) + Count(freed, m)
  }

  lemma {:induction false} SettledExtend<T(!new)>(drawn: seq<T>, sent: seq<T>, freed: seq<T>, a: seq<T>, b: seq<T>)
    requires Settled(drawn, sent, freed)
    ensures Settled(drawn + (a + b), sent + a, freed + b)
  {
    forall m: T ensures Count(drawn + (a + b), m) == Count(sent + a, m) + Count(freed + b, m) {
      CountConcat(drawn, a + b, m);
      CountConcat(a, b, m);
      CountConcat(sent, a, m);
      CountConcat(freed, b, m);
    }
  }

  lemma {:induction false} SettledReversed<T(!new)>(drawn: seq<T>, sent: seq<T>, freed: seq<T>, b: seq<T>)
    requires Settled(drawn, sent, freed)
    ensures Settled(drawn + b, sent, freed + Reversed(b))
  {
    forall m: T ensures Count(drawn + b, m) == Count(sent, m) + Count(freed + Reversed(b), m) {
      CountConcat(drawn, b, m);
      CountConcat(freed, Reversed(b), m);
      CountReversed(b, m);
    }
  }
}
