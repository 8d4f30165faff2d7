/**
 The memory-zone monitor (memzone-monitor/main.c): the zone is hashed cache line by cache line, the first
 call keeps the hashes, and every later call reports the lines whose hash has changed.
 */
module MemzoneMonitor {
  import opened Bits

  const LINE: nat := 64

  /** avgLen is an int32_t */
  const MAX_LINES: nat := 0x8000_0000

  type Byte = bv8

  // The power of two that sizes the table of hashes.

  /** temp |= temp >> d */
  function Smeared(t: nat, d: nat): nat {
    Or(t, Shift(t, d))
  }

  function Size(avgLen: nat): nat {
    Smeared(Smeared(Smeared(Smeared(Smeared(avgLen, 1), 2), 4), 8), 16) + 1
  }

  ghost predicate Near(x: nat, i: nat, d: nat) {
    exists j: nat :: i <= j < i + d && Bit(x, j)
  }

  /** t has the bits of x, each with the d - 1 positions below it. */
  ghost predicate Covers(t: nat, x: nat, d: nat) {
    forall i: nat :: Bit(t, i) <==> Near(x, i, d)
  }

  lemma {:induction false} SmearDoubles(t: nat, x: nat, d: nat)
    requires Covers(t, x, d)
    ensures Covers(Smeared(t, d), x, 2 * d)
  {
    forall i: nat ensures Bit(Smeared(t, d), i) <==> Near(x, i, 2 * d) {
      BitOr(t, Shift(t, d), i);
      BitShift(t, d, i);
      assert Near(x, i, 2 * d) <==> Near(x, i, d) || Near(x, i + d, d);
    }
  }

  lemma {:induction false} SizeCovers(x: nat)
    ensures Covers(Size(x) - 1, x, 32)
  {
    forall i: nat ensures Bit(x, i) <==> Near(x, i, 1) {
      if Bit(x, i) {
        assert i <= i < i + 1;
      }
    }
    SmearDoubles(x, x, 1);
    var t1 := Smeared(x, 1);
    SmearDoubles(t1, x, 2);
    var t2 := Smeared(t1, 2);
    SmearDoubles(t2, x, 4);
    var t4 := Smeared(t2, 4);
    SmearDoubles(t4, x, 8);
    SmearDoubles(Smeared(t4, 8), x, 16);
  }

  lemma {:induction false} BitBeyond(x: nat, w: nat, i: nat)
    requires x < Pow2(w) <= Pow2(i)
    ensures !Bit(x, i)
    decreases i
  {
    if i > 0 {
      if w > 0 {
        BitBeyond(x / 2, w - 1, i - 1);
      } else {
        BitZero(i);
      }
    }
  }

  /** The highest bit of a positive number. */
  lemma {:induction false} TopBit(x: nat) returns (h: nat)
    requires x > 0
    ensures Bit(x, h) && Pow2(h) <= x < Pow2(h + 1)
  {
    if x == 1 {
      h := 0;
    } else {
      h := TopBit(x / 2);
      h := h + 1;
    }
  }

  lemma {:induction false} SameBits(a: nat, b: nat)
    requires forall i: nat :: Bit(a, i) <==> Bit(b, i)
    ensures a == b
    decreases a + b
  {
    if a > 0 || b > 0 {
      assert Bit(a, 0) <==> Bit(b, 0);
      forall i: nat ensures Bit(a / 2, i) <==> Bit(b / 2, i) {
        assert Bit(a, i + 1) <==> Bit(b, i + 1);
      }
      SameBits(a / 2, b / 2);
    }
  }

  lemma {:induction false} OnesValue(n: nat)
    ensures Ones(0, n) + 1 == Pow2(n)
  {
    if n > 0 {
      OnesValue(n - 1);
    }
  }

  lemma {:induction false} MaxLines()
    ensures Pow2(31) == MAX_LINES
  {
    assert Pow2(10) == 1024;
    assert Pow2(20) == 1024 * Pow2(10);
  }

  /** The table size is the least power of two above the number of whole lines, and fits its 32 bits. */
  lemma {:induction false} SizeIsLeastPower(x: nat) returns (h: nat)
    requires x < MAX_LINES
    ensures Size(x) == Pow2(h) && x < Pow2(h) && h <= 31
    ensures forall k: nat :: x < Pow2(k) ==> h <= k
  {
    SizeCovers(x);
    if x == 0 {
      h := 0;
      forall i: nat ensures !Bit(0, i) {
        BitZero(i);
      }
      SameBits(Size(0) - 1, 0);
      return;
    }
    var top := TopBit(x);
    h := top + 1;
    MaxLines();
    if top >= 31 {
      Pow2Monotone(31, top);
    }
    forall k: nat | x < Pow2(k) ensures h <= k {
      if k <= top {
        Pow2Monotone(k, top);
      }
    }
    FillBelow(Size(x) - 1, x, top);
    OnesValue(h);
  }

  lemma {:induction false} FillBelow(t: nat, x: nat, top: nat)
    requires Covers(t, x, 32) && top < 32
    requires Bit(x, top) && x < Pow2(top + 1)
    ensures t == Ones(0, top + 1)
  {
    forall i: nat ensures Bit(t, i) <==> Bit(Ones(0, top + 1), i) {
      BitOnes(0, top + 1, i);
      if i <= top {
        assert i <= top < i + 32;
      } else {
        forall j: nat | i <= j ensures !Bit(x, j) {
          Pow2Monotone(top + 1, j);
          BitBeyond(x, top + 1, j);
        }
      }
    }
    SameBits(t, Ones(0, top + 1));
  }

  // Lines.

  /** The lines of a zone: the whole ones and, if bytes spill over, a shorter last one. */
  function Lines(n: nat): nat {
    if n % LINE == 0 then n / LINE else n / LINE + 1
  }

  function Line(zone: seq<Byte>, i: nat): seq<Byte>
    requires i < Lines(|zone|)
  {
    if i < |zone| / LINE then zone[i * LINE..(i + 1) * LINE] else zone[i * LINE..]
  }

  /** Two zones of one length are equal exactly if all their lines are. */
  lemma {:induction false} ZoneIsItsLines(a: seq<Byte>, b: seq<Byte>)
    requires |a| == |b|
    ensures a == b <==> forall i :: 0 <= i < Lines(|a|) ==> Line(a, i) == Line(b, i)
  {
    if forall i :: 0 <= i < Lines(|a|) ==> Line(a, i) == Line(b, i) {
      forall k | 0 <= k < |a| ensures a[k] == b[k] {
        LineHolds(a, k);
        LineHolds(b, k);
        assert Line(a, k / LINE) == Line(b, k / LINE);
      }
    }
  }

  lemma {:induction false} LineHolds(zone: seq<Byte>, k: nat)
    requires k < |zone|
    ensures k / LINE < Lines(|zone|) && k % LINE < |Line(zone, k / LINE)|
    ensures Line(zone, k / LINE)[k % LINE] == zone[k]
  {
  }

  type Hash = seq<Byte> -> nat

  /** The lines below n whose hash differs from that of the baseline, ascending. */
  function Changed(h: Hash, first: seq<Byte>, zone: seq<Byte>, n: nat): seq<nat>
    requires |first| == |zone| && n <= Lines(|zone|)
  {
    if n == 0 then [] else
      var rest := Changed(h, first, zone, n - 1);
      var i: nat := n - 1;
      if h(Line(zone, i)) != h(Line(first, i)) then rest + [i] else rest
  }

  /** A reported line has changed. Every changed line is reported exactly if no changed line collides with
      the line it replaced. */
  ghost predicate NoCollision(h: Hash, first: seq<Byte>, zone: seq<Byte>)
    requires |first| == |zone|
  {
    forall i :: 0 <= i < Lines(|zone|) ==> (h(Line(zone, i)) == h(Line(first, i)) ==> Line(zone, i) == Line(first, i))
  }

  lemma {:induction false} ChangedMembers(h: Hash, first: seq<Byte>, zone: seq<Byte>, n: nat, i: nat)
    requires |first| == |zone| && n <= Lines(|zone|)
    ensures i in Changed(h, first, zone, n) <==> i < n && h(Line(zone, i)) != h(Line(first, i))
  {
    if n > 0 {
      ChangedMembers(h, first, zone, n - 1, i);
    }
  }

  /** Ascending line numbers below n. */
  ghost predicate Ascending(report: seq<nat>, n: nat) {
    && (forall i :: 0 <= i < |report| ==> report[i] < n)
    && (forall i, j :: 0 <= i < j < |report| ==> report[i] < report[j])
  }

  /** The lines are reported in their order in the zone, each once. */
  lemma {:induction false} ReportAscends(h: Hash, first: seq<Byte>, zone: seq<Byte>, n: nat)
    requires |first| == |zone| && n <= Lines(|zone|)
    ensures Ascending(Changed(h, first, zone, n), n)
  {
    if n == 0 {
      assert Changed(h, first, zone, n) == [];
    } else {
      var last: nat := n - 1;
      ReportAscends(h, first, zone, last);
      AscendingSnoc(Changed(h, first, zone, last), last);
    }
  }

  lemma {:induction false} AscendingSnoc(report: seq<nat>, n: nat)
    requires Ascending(report, n)
    ensures Ascending(report, n + 1) && Ascending(report + [n], n + 1)
  {
  }

  lemma {:induction false} ReportsAreExact(h: Hash, first: seq<Byte>, zone: seq<Byte>)
    requires |first| == |zone|
    ensures (var report := Changed(h, first, zone, Lines(|zone|));
             && (forall i :: i in report ==> i < Lines(|zone|) && Line(zone, i) != Line(first, i))
             && ((forall i :: 0 <= i < Lines(|zone|) && Line(zone, i) != Line(first, i) ==> i in report) <==>
                 NoCollision(h, first, zone)))
  {
    forall i: nat
      ensures i in Changed(h, first, zone, Lines(|zone|)) <==>
              i < Lines(|zone|) && h(Line(zone, i)) != h(Line(first, i))
    {
      ChangedMembers(h, first, zone, Lines(|zone|), i);
    }
  }

  /** Short of a collision the monitor is silent exactly if the zone is what it was. */
  lemma {:induction false} SilentIffUnchanged(h: Hash, first: seq<Byte>, zone: seq<Byte>)
    requires |first| == |zone| && NoCollision(h, first, zone)
    ensures Changed(h, first, zone, Lines(|zone|)) == [] <==> first == zone
  {
    ReportsAreExact(h, first, zone);
    ZoneIsItsLines(first, zone);
    var report := Changed(h, first, zone, Lines(|zone|));
    if report != [] {
      assert report[0] in report;
    }
  }

  ghost predicate LeastPower(p: nat, x: nat) {
    exists h: nat :: p == Pow2(h) && x < p && forall k: nat :: x < Pow2(k) ==> h <= k
  }

  method TableSize(avgLen: nat) returns (temp: nat)
    requires avgLen < MAX_LINES
    ensures avgLen < temp && LeastPower(temp, avgLen)
  {
    temp := avgLen;
    temp := Or(temp, Shift(temp, 1));
    temp := Or(temp, Shift(temp, 2));
    temp := Or(temp, Shift(temp, 4));
    temp := Or(temp, Shift(temp, 8));
    temp := Or(temp, Shift(temp, 16));
    temp := temp + 1;
    assert temp == Size(avgLen);
    ghost var h := SizeIsLeastPower(avgLen);
    assert temp == Pow2(h);
  }

  lemma {:induction false} TableHolds(n: nat, temp: nat)
    requires n / LINE < temp
    ensures Lines(n) <= temp * LINE / 4
  {
  }

  class Timer {
    /** the table of hashes, null until the first call */
    var hashes: array?<nat>
    var avgLen: nat
    var spillLen: nat
    var temp: nat
    /** the zone as the first call found it */
    ghost var first: seq<Byte>

    ghost predicate Valid(h: Hash)
      reads this, hashes
    {
      hashes != null ==>
        && avgLen == |first| / LINE && spillLen == |first| % LINE
        && hashes.Length >= Lines(|first|)
        && forall i :: 0 <= i < Lines(|first|) ==> hashes[i] == h(Line(first, i))
    }

    constructor (h: Hash)
      ensures Valid(h) && hashes == null
    {
      hashes, avgLen, spillLen, temp := null, 0, 0, 0;
    }

    /** The first call: size the table, hash the lines. calloc(temp, 64) holds 16 hashes for each unit. */
    method Record(h: Hash, zone: seq<Byte>)
      requires hashes == null && |zone| / LINE < MAX_LINES
      modifies this
      ensures Valid(h) && hashes != null && fresh(hashes) && first == zone
      ensures avgLen < temp && LeastPower(temp, avgLen)
    {
      avgLen := |zone| / LINE;
      spillLen := |zone| - LINE * avgLen;
      temp := TableSize(avgLen);
      TableHolds(|zone|, temp);
      var table := new nat[temp * LINE / 4](_ => 0);
      FillTable(table, h, zone);
      hashes := table;
      first := zone;
    }

    method FillTable(table: array<nat>, h: Hash, zone: seq<Byte>)
      requires avgLen == |zone| / LINE && spillLen == |zone| % LINE && table.Length >= Lines(|zone|)
      modifies table
      ensures forall i :: 0 <= i < Lines(|zone|) ==> table[i] == h(Line(zone, i))
    {
      var i, data := 0, 0;
      while i < avgLen
        invariant 0 <= i <= avgLen && data == i * LINE
        invariant forall j :: 0 <= j < i ==> table[j] == h(Line(zone, j))
      {
        table[i] := h(zone[data..data + LINE]);
        i, data := i + 1, data + LINE;
      }
      if spillLen != 0 {
        table[i] := h(zone[data..data + spillLen]);
        assert zone[data..data + spillLen] == Line(zone, i);
      }
    }

    /** Every later call: hash the lines again and compare. */
    method Compare(h: Hash, zone: seq<Byte>, console: bool, displaymenu: bool) returns (report: seq<nat>)
      requires Valid(h) && hashes != null && |zone| == |first|
      ensures report == if Shown(console, displaymenu) then Changed(h, first, zone, Lines(|zone|)) else []
    {
      report := [];
      var i, data := 0, 0;
      while i < avgLen
        invariant 0 <= i <= avgLen && data == i * LINE
        invariant report == if Shown(console, displaymenu) then Changed(h, first, zone, i) else []
      {
        var tempcrc := h(zone[data..data + LINE]);
        assert zone[data..data + LINE] == Line(zone, i);
        if tempcrc != hashes[i] {
          report := Print(report, i, console, displaymenu);
        }
        i, data := i + 1, data + LINE;
      }
      if spillLen != 0 {
        var tempcrc := h(zone[data..data + spillLen]);
        assert zone[data..data + spillLen] == Line(zone, i);
        if tempcrc != hashes[i] {
          report := Print(report, i, console, displaymenu);
        }
      }
    }

    /** monitor_timer_cb while the monitor is on and a zone is selected */
    method Callback(h: Hash, zone: seq<Byte>, console: bool, displaymenu: bool) returns (report: seq<nat>)
      requires Valid(h) && |zone| / LINE < MAX_LINES && (hashes != null ==> |zone| == |first|)
      modifies this
      ensures Valid(h) && hashes != null
      ensures old(hashes) == null ==> first == zone && report == []
      ensures old(hashes) != null ==> hashes == old(hashes) && first == old(first)
      ensures report == if Shown(console, displaymenu) then Changed(h, first, zone, Lines(|zone|)) else []
    {
      if hashes == null {
        Record(h, zone);
        NothingChanged(h, zone, Lines(|zone|));
        return [];
      }
      report := Compare(h, zone, console, displaymenu);
    }
  }

  /** A changed line is printed to the log file, or to the console if the menu is displayed there. */
  predicate Shown(console: bool, displaymenu: bool) {
    !console || displaymenu
  }

  method Print(report: seq<nat>, i: nat, console: bool, displaymenu: bool) returns (longer: seq<nat>)
    ensures longer == if console && !displaymenu then report else report + [i]
  {
    longer := report;
    if console {
      if displaymenu {
        longer := report + [i];
      }
    } else {
      longer := report + [i];
    }
  }

  lemma {:induction false} NothingChanged(h: Hash, zone: seq<Byte>, n: nat)
    requires n <= Lines(|zone|)
    ensures Changed(h, zone, zone, n) == []
  {
    if n > 0 {
      NothingChanged(h, zone, n - 1);
    }
  }
}
