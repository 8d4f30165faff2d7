/**
 The core-mask parser and the core counting of ebpf-debug/eventenqdeq-trace/main.c.
 */
module CoreMask {
  import opened Bits
  import opened Sequences

  const MAX_NUM_CORE: nat := 64

  /** What parse_coremask returns on failure: -1 as a 64-bit word. */
  const FAILURE: nat := 0xFFFF_FFFF_FFFF_FFFF

  predicate IsBlank(c: char) {
    c == ' ' || c == '\t'
  }

  predicate IsHexDigit(c: char) {
    '0' <= c <= '9' || 'A' <= c <= 'F' || 'a' <= c <= 'f'
  }

  function DigitValue(c: char): (v: nat)
    requires IsHexDigit(c)
    ensures v < 16
  {
    if '0' <= c <= '9' then (c - '0') as nat
    else if 'A' <= c <= 'F' then (c - 'A') as nat + 10
    else (c - 'a') as nat + 10
  }

  const LOWER: string := "0123456789abcdef"
  const UPPER: string := "0123456789ABCDEF"

  /** The sixteen digits in either case, and nothing else. */
  lemma {:induction false} DigitOf(k: nat)
    requires k < 16
    ensures IsHexDigit(LOWER[k]) && DigitValue(LOWER[k]) == k
    ensures IsHexDigit(UPPER[k]) && DigitValue(UPPER[k]) == k
  {
  }

  lemma {:induction false} OnlyDigits(c: char)
    ensures IsHexDigit(c) <==> c in LOWER || c in UPPER
  {
    if IsHexDigit(c) {
      var k := DigitValue(c);
      assert LOWER[k] == c || UPPER[k] == c;
    }
  }

  /* ---------------------------------------------------------------- specification */

  predicate AllHex(t: string) {
    forall i :: 0 <= i < |t| ==> IsHexDigit(t[i])
  }

  /** The number a hexadecimal text denotes. */
  function HexNumber(t: string): nat
    requires AllHex(t)
  {
    if t == [] then 0 else DigitValue(t[0]) * Pow2(4 * (|t| - 1)) + HexNumber(t[1..])
  }

  function SkipBlanks(s: string): string {
    if s != [] && IsBlank(s[0]) then SkipBlanks(s[1..]) else s
  }

  predicate HasPrefix(s: string) {
    |s| >= 2 && s[0] == '0' && (s[1] == 'x' || s[1] == 'X')
  }

  function DropPrefix(s: string): string {
    if HasPrefix(s) then s[2..] else s
  }

  function TrimEnd(s: string): string {
    if s != [] && IsBlank(s[|s| - 1]) then TrimEnd(s[..|s| - 1]) else s
  }

  /** The digits of an argument: blanks around them and one 0x removed. */
  function Digits(s: string): string {
    TrimEnd(DropPrefix(SkipBlanks(s)))
  }

  /** Hexadecimal throughout, zeros above the sixteenth digit from the right, and not zero. */
  predicate Acceptable(t: string) {
    AllHex(t) && (forall i :: 0 <= i < |t| - 16 ==> t[i] == '0') && HexNumber(t) != 0
  }

  function Parsed(s: Option<string>): nat {
    if s.Some? && Acceptable(Digits(s.value)) then HexNumber(Digits(s.value)) else FAILURE
  }

  /* ---------------------------------------------------------------- arithmetic of the loops */

  lemma {:induction false} Pow2Add(a: nat, b: nat)
    ensures Pow2(b + a) == Pow2(a) * Pow2(b)
  {
    if a == 0 {
      Times(1, Pow2(b));
    } else {
      calc {
        Pow2(b + a);
      == // the definition
        2 * Pow2(b + (a - 1));
      == { Pow2Add(a - 1, b); }
        2 * (Pow2(a - 1) * Pow2(b));
      == { MulAssociates(2, Pow2(a - 1), Pow2(b)); }
        (2 * Pow2(a - 1)) * Pow2(b);
      == // the definition
        Pow2(a) * Pow2(b);
      }
    }
  }

  lemma {:induction false} Times(a: nat, b: nat)
    ensures a == 1 ==> a * b == b
  {
  }

  lemma {:induction false} MulAssociates(a: nat, b: nat, c: nat)
    ensures a * (b * c) == (a * b) * c
  {
  }

  /** A bit above all others is added. */
  lemma {:induction false} SetTopBit(m: nat, i: nat)
    requires m < Pow2(i)
    ensures SetBit(m, i) == m + Pow2(i) && !Bit(m, i)
  {
    if i > 0 {
      SetTopBit(m / 2, i - 1);
    }
  }

  /** The low j bits of v. */
  function Low(v: nat, j: nat): nat {
    if j == 0 then 0 else Low(v, j - 1) + (if Bit(v, j - 1) then Pow2(j - 1) else 0)
  }

  lemma {:induction false} LowNibble(v: nat)
    requires v < 16
    ensures Low(v, 4) == v
  {
    assert Pow2(1) == 2 && Pow2(2) == 4 && Pow2(3) == 8;
    assert Low(v, 1) == (if Bit(v, 0) then 1 else 0);
    assert Low(v, 2) == Low(v, 1) + (if Bit(v, 1) then 2 else 0);
    assert Low(v, 3) == Low(v, 2) + (if Bit(v, 2) then 4 else 0);
    assert Bit(v, 1) == Bit(v / 2, 0) && Bit(v, 2) == Bit(v / 2 / 2, 0) && Bit(v, 3) == Bit(v / 2 / 2 / 2, 0) by {
      assert Bit(v, 2) == Bit(v / 2, 1) && Bit(v, 3) == Bit(v / 2, 2);
      assert Bit(v / 2, 2) == Bit(v / 2 / 2, 1);
    }
  }

  lemma {:induction false} LowBound(v: nat, j: nat)
    ensures Low(v, j) < Pow2(j)
  {
    if j > 0 {
      LowBound(v, j - 1);
    }
  }

  lemma {:induction false} PowNibble(n: nat)
    ensures Pow2(n + 4) == 16 * Pow2(n)
  {
    assert Pow2(n + 4) == 2 * Pow2(n + 3) && Pow2(n + 3) == 2 * Pow2(n + 2);
    assert Pow2(n + 2) == 2 * Pow2(n + 1);
  }

  lemma {:induction false} DigitBound(d: nat, p: nat, x: nat)
    requires d < 16 && x < p
    ensures d * p + x < 16 * p
  {
    assert (15 - d) * p >= 0;
  }

  lemma {:induction false} HexBound(t: string)
    requires AllHex(t)
    ensures HexNumber(t) < Pow2(4 * |t|)
  {
    if t != [] {
      HexBound(t[1..]);
      PowNibble(4 * (|t| - 1));
      DigitBound(DigitValue(t[0]), Pow2(4 * (|t| - 1)), HexNumber(t[1..]));
    }
  }

  /** Setting bit idx+j on top of a mask adds 2^j nibble units. */
  lemma {:induction false} NibbleBit(m: nat, mask: nat, low: nat, idx: nat, j: nat)
    requires m == mask + low * Pow2(idx) && m < Pow2(idx + j)
    ensures SetBit(m, idx + j) == mask + (low + Pow2(j)) * Pow2(idx)
    ensures SetBit(m, idx + j) < Pow2(idx + j + 1)
    ensures PopCount(SetBit(m, idx + j)) == PopCount(m) + 1
  {
    SetTopBit(m, idx + j);
    PopSet(m, idx + j);
    Pow2Add(j, idx);
    Distribute(low, Pow2(j), Pow2(idx));
  }

  lemma {:induction false} Distribute(a: nat, b: nat, p: nat)
    ensures (a + b) * p == a * p + b * p
  {
  }

  /** The low j bits of val are in place above the idx bits of mask, and counted. */
  ghost predicate NibbleUpTo(mask: nat, val: nat, idx: nat, j: nat, m: nat, count: nat) {
    m == mask + Low(val, j) * Pow2(idx) && m < Pow2(idx + j) && count == PopCount(m)
  }

  lemma {:induction false} NibbleStart(mask: nat, val: nat, idx: nat)
    requires mask < Pow2(idx)
    ensures NibbleUpTo(mask, val, idx, 0, mask, PopCount(mask))
  {
  }

  lemma {:induction false} NibbleStep(mask: nat, val: nat, idx: nat, j: nat, m: nat, count: nat)
    requires NibbleUpTo(mask, val, idx, j, m, count)
    ensures Bit(val, j) ==> NibbleUpTo(mask, val, idx, j + 1, SetBit(m, idx + j), count + 1)
    ensures !Bit(val, j) ==> NibbleUpTo(mask, val, idx, j + 1, m, count)
  {
    if Bit(val, j) {
      NibbleBit(m, mask, Low(val, j), idx, j);
    } else {
      assert Low(val, j + 1) == Low(val, j);
      Pow2Monotone(idx + j, idx + j + 1);
    }
  }

  /** One nibble of the mask: the bits of val go to positions idx, idx+1, ... */
  method OrNibble(mask: nat, val: nat, idx: nat, count: nat) returns (m: nat, newCount: nat)
    requires val < 16 && mask < Pow2(idx) && count == PopCount(mask)
    ensures m == val * Pow2(idx) + mask && newCount == PopCount(m)
  {
    m, newCount := mask, count;
    NibbleStart(mask, val, idx);
    for j := 0 to 4
      invariant NibbleUpTo(mask, val, idx, j, m, newCount)
    {
      NibbleStep(mask, val, idx, j, m, newCount);
      if Bit(val, j) {
        m := SetBit(m, idx + j);
        newCount := newCount + 1;
      }
    }
    LowNibble(val);
  }

  predicate HexFrom(t: string, k: nat) {
    forall j :: k <= j < |t| ==> IsHexDigit(t[j])
  }

  /** The number the digits from index k on denote. */
  function NumberFrom(t: string, k: nat): nat
    requires k <= |t| && HexFrom(t, k)
    decreases |t| - k
  {
    if k == |t| then 0 else DigitValue(t[k]) * Pow2(4 * (|t| - 1 - k)) + NumberFrom(t, k + 1)
  }

  lemma {:induction false} NumberOfSuffix(t: string, k: nat)
    requires k <= |t| && HexFrom(t, k)
    ensures AllHex(t[k..]) && NumberFrom(t, k) == HexNumber(t[k..])
    decreases |t| - k
  {
    if k < |t| {
      NumberOfSuffix(t, k + 1);
      assert t[k..][1..] == t[k + 1..];
    }
  }

  /** The mask is the number the digits from index k on denote, and count its number of bits. */
  ghost predicate Holds(t: string, k: nat, mask: nat, count: nat) {
    k <= |t| && HexFrom(t, k) && mask == NumberFrom(t, k) && count == PopCount(mask)
  }

  /** The digit at index i goes on top of the digits after it. */
  method OrDigit(t: string, i: nat, mask: nat, idx: nat, count: nat) returns (m: nat, newCount: nat)
    requires i < |t| && IsHexDigit(t[i]) && idx == 4 * (|t| - 1 - i) && Holds(t, i + 1, mask, count)
    ensures Holds(t, i, m, newCount)
  {
    NumberOfSuffix(t, i + 1);
    HexBound(t[i + 1..]);
    m, newCount := OrNibble(mask, DigitValue(t[i]), idx, count);
  }

  /** The digit loop over up to sixteen digits from the right; i is where it stops. */
  method LowDigits(t: string) returns (ok: bool, i: int, mask: nat, count: nat)
    ensures -1 <= i < |t|
    ensures ok ==> Holds(t, i + 1, mask, count)
    ensures ok ==> i == (if |t| <= 16 then -1 else |t| - 17)
    ensures !ok ==> i >= 0 && !IsHexDigit(t[i])
  {
    var idx := 0;
    ok, i, mask, count := true, |t| - 1, 0, 0;
    ghost var digits := 0;
    while i >= 0 && idx < MAX_NUM_CORE
      invariant -1 <= i == |t| - 1 - digits && idx == 4 * digits <= MAX_NUM_CORE
      invariant Holds(t, i + 1, mask, count)
    {
      if !IsHexDigit(t[i]) {
        ok := false;
        return;
      }
      mask, count := OrDigit(t, i, mask, idx, count);
      idx := idx + 4;
      i := i - 1;
      digits := digits + 1;
    }
  }

  /** The loop over the digits above: zeros only. */
  method HighZeros(t: string, top: int) returns (ok: bool)
    requires -1 <= top < |t|
    ensures ok <==> forall k :: 0 <= k <= top ==> t[k] == '0'
  {
    var i := top;
    while i >= 0
      invariant -1 <= i <= top && forall k :: i < k <= top ==> t[k] == '0'
    {
      if t[i] != '0' {
        return false;
      }
      i := i - 1;
    }
    return true;
  }

  lemma {:induction false} LeadingZeros(t: string, i: nat)
    requires i <= |t| && AllHex(t[i..]) && forall k :: 0 <= k < i ==> t[k] == '0'
    ensures AllHex(t) && HexNumber(t) == HexNumber(t[i..])
  {
    if i == 0 {
      assert t[0..] == t;
    } else {
      assert t[i - 1..][1..] == t[i..];
      LeadingZeros(t, i - 1);
    }
  }

  lemma {:induction false} ZerosAbove(t: string, k: nat)
    requires k <= |t| && HexFrom(t, k) && forall j :: 0 <= j < k ==> t[j] == '0'
    ensures HexFrom(t, 0) && NumberFrom(t, 0) == NumberFrom(t, k)
    decreases k
  {
    if k > 0 {
      assert HexFrom(t, k - 1) && NumberFrom(t, k - 1) == NumberFrom(t, k);
      ZerosAbove(t, k - 1);
    }
  }

  lemma {:induction false} WholeNumber(t: string)
    requires HexFrom(t, 0)
    ensures AllHex(t) && NumberFrom(t, 0) == HexNumber(t)
  {
    NumberOfSuffix(t, 0);
    assert t[0..] == t;
  }

  /** The digit loops: up to sixteen digits from the right build the mask, the rest must be zeros. */
  method ParseDigits(t: string) returns (mask: nat)
    requires t != []
    ensures mask == (if Acceptable(t) then HexNumber(t) else FAILURE)
  {
    var ok, i, m, count := LowDigits(t);
    if !ok {
      return FAILURE;
    }
    ok := HighZeros(t, i);
    if !ok {
      return FAILURE;
    }
    ZerosAbove(t, i + 1);
    WholeNumber(t);
    PopZero(m);
    mask := if count == 0 then FAILURE else m;
  }

  /** parse_coremask; None is the null pointer. */
  method ParseCoremask(s: Option<string>) returns (mask: nat)
    ensures mask == Parsed(s)
  {
    if s.None? {
      return FAILURE;
    }
    var text := s.value;
    while text != [] && IsBlank(text[0])
      invariant SkipBlanks(text) == SkipBlanks(s.value)
      decreases |text|
    {
      text := text[1..];
    }
    if |text| >= 2 && text[0] == '0' && (text[1] == 'x' || text[1] == 'X') {
      text := text[2..];
    }
    while text != [] && IsBlank(text[|text| - 1])
      invariant TrimEnd(text) == Digits(s.value)
      decreases |text|
    {
      text := text[..|text| - 1];
    }
    if text == [] {
      return FAILURE;
    }
    mask := ParseDigits(text);
  }

  /** The mask fits its 64-bit word, so no bit is ever shifted out of it; and since only an accepted
      argument yields anything but FAILURE, only the all-ones mask can be mistaken for a failure. */
  lemma {:induction false} ParsedFits(s: Option<string>)
    ensures Parsed(s) < 0x1_0000_0000_0000_0000
    ensures Parsed(s) != FAILURE ==> Parsed(s) > 0 && Acceptable(Digits(s.value))
  {
    if s.Some? && Acceptable(Digits(s.value)) {
      var t := Digits(s.value);
      var top := if |t| <= 16 then 0 else |t| - 16;
      LeadingZeros(t, top);
      HexBound(t[top..]);
      Pow2Monotone(4 * |t[top..]|, 64);
      WordLimit();
    }
  }

  lemma {:induction false} Doubled(a: nat, p: nat)
    requires Pow2(a) == p
    ensures Pow2(a + a) == p * p
  {
    Pow2Add(a, a);
  }

  lemma {:induction false} WordLimit()
    ensures Pow2(64) == 0x1_0000_0000_0000_0000
  {
    Doubled(8, 0x100);
    Doubled(16, 0x1_0000);
    Doubled(32, 0x1_0000_0000);
  }

  /* ---------------------------------------------------------------- round trip */

  function HexDigit(v: nat): (c: char)
    requires v < 16
    ensures IsHexDigit(c) && DigitValue(c) == v && (c == '0' <==> v == 0)
  {
    if v < 10 then '0' + v as char else 'a' + (v - 10) as char
  }

  /** The usual hexadecimal print of a number. */
  function Print(m: nat): (t: string)
    ensures t != [] && AllHex(t)
  {
    if m < 16 then [HexDigit(m)] else Print(m / 16) + [HexDigit(m % 16)]
  }

  lemma {:induction false} HexSnoc(t: string, c: char)
    requires AllHex(t) && IsHexDigit(c)
    ensures HexNumber(t + [c]) == 16 * HexNumber(t) + DigitValue(c)
  {
    if t == [] {
      assert t + [c] == [c];
    } else {
      HexSnoc(t[1..], c);
      assert (t + [c])[1..] == t[1..] + [c] && (t + [c])[0] == t[0];
      PowNibble(4 * (|t| - 1));
      MulAssociates(DigitValue(t[0]), 16, Pow2(4 * (|t| - 1)));
      MulAssociates(16, DigitValue(t[0]), Pow2(4 * (|t| - 1)));
    }
  }

  lemma {:induction false} PrintDenotes(m: nat)
    ensures HexNumber(Print(m)) == m
  {
    if m < 16 {
      assert Print(m)[1..] == [];
    } else {
      PrintDenotes(m / 16);
      HexSnoc(Print(m / 16), HexDigit(m % 16));
    }
  }

  lemma {:induction false} PrintLength(m: nat, k: nat)
    requires m < Pow2(4 * k) && k > 0
    ensures |Print(m)| <= k
  {
    PowNibble(4 * (k - 1));
    if m >= 16 {
      PrintLength(m / 16, k - 1);
    }
  }

  predicate Blank(s: string) {
    forall i :: 0 <= i < |s| ==> s[i] == ' ' || s[i] == '\t'
  }

  /** u is the hexadecimal text t with any of its letters in upper case. */
  ghost predicate InEitherCase(t: string, u: string) {
    |u| == |t| && forall i :: 0 <= i < |t| ==> u[i] == t[i] || InUpperCase(t[i], u[i])
  }

  ghost predicate InUpperCase(lower: char, upper: char) {
    exists k: nat :: k < 16 && lower == LOWER[k] && upper == UPPER[k]
  }

  lemma {:induction false} SameDigit(t: char, u: char)
    requires IsHexDigit(t) && (u == t || InUpperCase(t, u))
    ensures IsHexDigit(u) && DigitValue(u) == DigitValue(t) && (u == '0' <==> t == '0')
  {
    if u != t {
      var k: nat :| k < 16 && t == LOWER[k] && u == UPPER[k];
      DigitOf(k);
    }
  }

  lemma {:induction false} SameNumber(t: string, u: string)
    requires AllHex(t) && InEitherCase(t, u)
    ensures AllHex(u) && HexNumber(u) == HexNumber(t)
    ensures u != [] ==> (u[0] == '0' <==> t[0] == '0')
  {
    if t != [] {
      SameDigit(t[0], u[0]);
      SameNumber(t[1..], u[1..]);
      forall i | 0 <= i < |u| ensures IsHexDigit(u[i]) {
        SameDigit(t[i], u[i]);
      }
    }
  }

  lemma {:induction false} SkipLeading(pre: string, t: string)
    requires Blank(pre) && t != [] && !IsBlank(t[0])
    ensures SkipBlanks(pre + t) == t
  {
    if pre == [] {
      assert pre + t == t;
    } else {
      SkipLeading(pre[1..], t);
      assert (pre + t)[1..] == pre[1..] + t;
    }
  }

  lemma {:induction false} TrimTrailing(t: string, post: string)
    requires Blank(post) && t != [] && !IsBlank(t[|t| - 1])
    ensures TrimEnd(t + post) == t
  {
    if post == [] {
      assert t + post == t;
    } else {
      TrimTrailing(t, post[..|post| - 1]);
      assert (t + post)[..|t + post| - 1] == t + post[..|post| - 1];
    }
  }

  lemma {:induction false} DropOptionalPrefix(prefix: string, t: string, post: string)
    requires prefix in {"", "0x", "0X"} && AllHex(t) && t != [] && Blank(post)
    requires t[0] == '0' ==> |t| > 1
    ensures DropPrefix(prefix + (t + post)) == t + post
  {
    if prefix == "" {
      assert prefix + (t + post) == t + post;
    } else {
      assert (prefix + (t + post))[2..] == t + post;
    }
  }

  lemma {:induction false} DigitsWithin(pre: string, prefix: string, t: string, post: string)
    requires Blank(pre) && Blank(post) && prefix in {"", "0x", "0X"} && AllHex(t) && t != []
    requires t[0] == '0' ==> |t| > 1
    ensures Digits(pre + (prefix + (t + post))) == t
  {
    DropOptionalPrefix(prefix, t, post);
    assert prefix == "" ==> prefix + (t + post) == t + post;
    SkipLeading(pre, prefix + (t + post));
    TrimTrailing(t, post);
  }

  lemma {:induction false} PrintAcceptable(m: nat, u: string, zeros: nat)
    requires 0 < m < Pow2(64) && InEitherCase(Print(m), u)
    ensures Acceptable(Zeros(zeros) + u) && HexNumber(Zeros(zeros) + u) == m
    ensures Zeros(zeros) + u != [] && ((Zeros(zeros) + u)[0] == '0' ==> |Zeros(zeros) + u| > 1)
  {
    SameNumber(Print(m), u);
    ZerosHex(zeros, u);
    PrintDenotes(m);
    PrintLength(m, 16);
    PrintNoLeadingZero(m);
  }

  /** Parsing the print of any nonzero 64-bit mask returns it: with each letter in either case, with or without
      0x, with any number of leading zeros and with blanks around. */
  lemma {:induction false} RoundTrip(m: nat, u: string, pre: string, prefix: string, zeros: nat, post: string)
    requires 0 < m < Pow2(64) && InEitherCase(Print(m), u)
    requires Blank(pre) && Blank(post) && prefix in {"", "0x", "0X"}
    ensures Parsed(Some(pre + (prefix + ((Zeros(zeros) + u) + post)))) == m
  {
    PrintAcceptable(m, u, zeros);
    DigitsWithin(pre, prefix, Zeros(zeros) + u, post);
  }

  /** A character that belongs into no argument. */
  predicate Foreign(c: char) {
    c !in LOWER && c !in UPPER && c !in " \txX"
  }

  lemma {:induction false} ForeignStays(s: string, i: nat)
    requires i < |s| && Foreign(s[i])
    ensures exists j :: 0 <= j < |Digits(s)| && Digits(s)[j] == s[i]
  {
    var j := SkipKeeps(s, i);
    var t := SkipBlanks(s);
    if HasPrefix(t) {
      assert j >= 2 && DropPrefix(t)[j - 2] == t[j];
      j := j - 2;
    }
    assert DropPrefix(t)[j] == s[i];
    j := TrimKeeps(DropPrefix(t), j);
    assert Digits(s)[j] == s[i];
  }

  lemma {:induction false} SkipKeeps(s: string, i: nat) returns (j: nat)
    requires i < |s| && Foreign(s[i])
    ensures j < |SkipBlanks(s)| && SkipBlanks(s)[j] == s[i]
  {
    if IsBlank(s[0]) {
      j := SkipKeeps(s[1..], i - 1);
    } else {
      j := i;
    }
  }

  lemma {:induction false} TrimKeeps(s: string, i: nat) returns (j: nat)
    requires i < |s| && Foreign(s[i])
    ensures j < |TrimEnd(s)| && TrimEnd(s)[j] == s[i]
  {
    if IsBlank(s[|s| - 1]) {
      j := TrimKeeps(s[..|s| - 1], i);
    } else {
      j := i;
    }
  }

  /** An argument with a character that is no digit, blank or x fails. */
  lemma {:induction false} ForeignFails(s: string, i: nat)
    requires i < |s| && Foreign(s[i])
    ensures Parsed(Some(s)) == FAILURE
  {
    ForeignStays(s, i);
    OnlyDigits(s[i]);
  }

  lemma {:induction false} PrintNoLeadingZero(m: nat)
    requires m > 0
    ensures Print(m)[0] != '0'
  {
    if m >= 16 {
      PrintNoLeadingZero(m / 16);
    }
  }

  function Zeros(k: nat): (z: string)
    ensures |z| == k && forall i :: 0 <= i < k ==> z[i] == '0'
  {
    seq(k, _ => '0')
  }

  lemma {:induction false} ZerosHex(k: nat, t: string)
    requires AllHex(t)
    ensures AllHex(Zeros(k) + t) && HexNumber(Zeros(k) + t) == HexNumber(t)
  {
    if k == 0 {
      assert Zeros(k) + t == t;
    } else {
      ZerosHex(k - 1, t);
      assert (Zeros(k) + t)[1..] == Zeros(k - 1) + t;
    }
  }

  /* ---------------------------------------------------------------- counting cores */

  /** The entries of rx_core, tx_core, sched_core and worker_core for one core. */
  datatype Roles = Roles(rx: bool, tx: bool, sched: bool, worker: bool)

  /** core_in_use */
  predicate InUse(r: Roles) {
    r.rx || r.sched || r.tx || r.worker
  }

  function RolesOf(rx: nat, tx: nat, sched: nat, worker: nat, i: nat): Roles {
    Roles(Bit(rx, i), Bit(tx, i), Bit(sched, i), Bit(worker, i))
  }

  function Union(rx: nat, tx: nat, sched: nat, worker: nat): nat {
    Or(Or(rx, tx), Or(sched, worker))
  }

  lemma {:induction false} UnionBit(rx: nat, tx: nat, sched: nat, worker: nat, i: nat)
    ensures Bit(Union(rx, tx, sched, worker), i) <==> InUse(RolesOf(rx, tx, sched, worker, i))
  {
    BitOr(rx, tx, i);
    BitOr(sched, worker, i);
    BitOr(Or(rx, tx), Or(sched, worker), i);
  }

  lemma {:induction false} UnionBound(rx: nat, tx: nat, sched: nat, worker: nat)
    requires rx < Pow2(64) && tx < Pow2(64) && sched < Pow2(64) && worker < Pow2(64)
    ensures Union(rx, tx, sched, worker) < Pow2(64)
  {
    OrBound(rx, tx, 64);
    OrBound(sched, worker, 64);
    OrBound(Or(rx, tx), Or(sched, worker), 64);
  }

  /** The mask-to-core loop of parse_app_args: roles per core, workers and cores in use. */
  method CountCores(rx: nat, tx: nat, sched: nat, worker: nat, roles: array<Roles>)
    returns (numWorkers: nat, activeCores: nat)
    requires rx < Pow2(64) && tx < Pow2(64) && sched < Pow2(64) && worker < Pow2(64)
    requires roles.Length == MAX_NUM_CORE
    modifies roles
    ensures forall i :: 0 <= i < MAX_NUM_CORE ==> roles[i] == RolesOf(rx, tx, sched, worker, i)
    ensures forall i :: 0 <= i < MAX_NUM_CORE ==>
              && (roles[i].rx <==> Bit(rx, i)) && (roles[i].tx <==> Bit(tx, i))
              && (roles[i].sched <==> Bit(sched, i)) && (roles[i].worker <==> Bit(worker, i))
    ensures numWorkers == PopCount(worker)
    ensures activeCores == PopCount(Union(rx, tx, sched, worker))
  {
    numWorkers, activeCores := 0, 0;
    for i := 0 to MAX_NUM_CORE
      invariant forall k :: 0 <= k < i ==> roles[k] == RolesOf(rx, tx, sched, worker, k)
      invariant numWorkers == Rank(worker, i) && activeCores == Rank(Union(rx, tx, sched, worker), i)
    {
      roles[i] := Roles(Bit(rx, i), Bit(tx, i), Bit(sched, i), Bit(worker, i));
      if roles[i].worker {
        numWorkers := numWorkers + 1;
      }
      UnionBit(rx, tx, sched, worker, i);
      if InUse(roles[i]) {
        activeCores := activeCores + 1;
      }
    }
    RankAll(worker, 64);
    UnionBound(rx, tx, sched, worker);
    RankAll(Union(rx, tx, sched, worker), 64);
  }
}
