/**
 * The parts of Go's `strings` and `strconv` packages the bots rely on:
 * splitting a callback on ":", joining name parts, stripping the "@" of a
 * nickname, ASCII case folding and `strconv.Atoi`.
 */
module GoStrings {

  /** `strings.Split(s, sep)` for a one-character separator: never empty. */
  function Split(s: string, sep: char): (parts: seq<string>)
    ensures |parts| >= 1
    decreases |s|
  {
    if s == [] then [""]
    else if s[0] == sep then [""] + Split(s[1..], sep)
    else
      var rest := Split(s[1..], sep);
      [[s[0]] + rest[0]] + rest[1..]
  }

  /** `strings.Join(parts, sep)` for a one-character separator. */
  function Join(parts: seq<string>, sep: char): string
    decreases |parts|
  {
    if parts == [] then ""
    else if |parts| == 1 then parts[0]
    else parts[0] + [sep] + Join(parts[1..], sep)
  }

  predicate Free(s: string, sep: char) {
    forall i :: 0 <= i < |s| ==> s[i] != sep
  }

  /** How many times `sep` occurs in `s`. */
  function Occurrences(s: string, sep: char): nat
    decreases |s|
  {
    if s == [] then 0 else (if s[0] == sep then 1 else 0) + Occurrences(s[1..], sep)
  }

  /** No part of a split contains the separator, and there is one part more than separators. */
  lemma {:induction false} SplitParts(s: string, sep: char)
    ensures forall k :: 0 <= k < |Split(s, sep)| ==> Free(Split(s, sep)[k], sep)
    ensures |Split(s, sep)| == Occurrences(s, sep) + 1
    decreases |s|
  {
    if s != [] {
      SplitParts(s[1..], sep);
      if s[0] != sep {
        var rest := Split(s[1..], sep);
        assert Free(rest[0], sep);
        assert Free([s[0]] + rest[0], sep);
      }
    }
  }

  /** Joining the parts of a split gives the string back. */
  lemma {:induction false} JoinSplit(s: string, sep: char)
    ensures Join(Split(s, sep), sep) == s
    decreases |s|
  {
    if s != [] {
      JoinSplit(s[1..], sep);
      var rest := Split(s[1..], sep);
      if s[0] == sep {
        assert Split(s, sep)[1..] == rest;
      } else {
        var parts := Split(s, sep);
        assert parts[1..] == rest[1..];
        if |rest| > 1 {
          assert Join(rest, sep) == rest[0] + [sep] + Join(rest[1..], sep);
          assert Join(parts, sep) == [s[0]] + rest[0] + [sep] + Join(rest[1..], sep);
        }
        assert Join(parts, sep) == [s[0]] + Join(rest, sep);
        assert s == [s[0]] + s[1..];
      }
    }
  }

  /** Splitting what was joined from separator-free parts gives the parts back. */
  lemma {:induction false} SplitJoin(parts: seq<string>, sep: char)
    requires |parts| >= 1
    requires forall k :: 0 <= k < |parts| ==> Free(parts[k], sep)
    ensures Split(Join(parts, sep), sep) == parts
    decreases |parts|
  {
    if |parts| == 1 {
      SplitFree(parts[0], sep);
    } else {
      SplitJoin(parts[1..], sep);
      SplitConcat(parts[0], Join(parts[1..], sep), sep);
    }
  }

  /** A separator-free string splits into itself. */
  lemma {:induction false} SplitFree(s: string, sep: char)
    requires Free(s, sep)
    ensures Split(s, sep) == [s]
    decreases |s|
  {
    if s != [] {
      SplitFree(s[1..], sep);
      assert [s[0]] + s[1..] == s;
    }
  }

  lemma {:induction false} SplitConcat(head: string, tail: string, sep: char)
    requires Free(head, sep)
    ensures Split(head + [sep] + tail, sep) == [head] + Split(tail, sep)
    decreases |head|
  {
    if head == [] {
      assert [] + [sep] + tail == [sep] + tail;
      assert ([sep] + tail)[1..] == tail;
    } else {
      var s := head + [sep] + tail;
      assert s[0] == head[0];
      assert s[1..] == head[1..] + [sep] + tail;
      SplitConcat(head[1..], tail, sep);
      assert [head[0]] + head[1..] == head;
    }
  }

  /**
   * `strings.SplitN(s, sep, 2)[0]` as the routers use `Split(s, sep)[0]`:
   * everything before the first separator.
   */
  function Head(s: string, sep: char): (h: string)
    ensures h <= s
    ensures Free(h, sep)
    ensures |h| < |s| ==> s[|h|] == sep
    ensures Free(s, sep) ==> h == s
    decreases |s|
  {
    if s == [] || s[0] == sep then "" else [s[0]] + Head(s[1..], sep)
  }

  /** The first part of a split is the head. */
  lemma {:induction false} SplitHead(s: string, sep: char)
    ensures Split(s, sep)[0] == Head(s, sep)
    decreases |s|
  {
    if s != [] && s[0] != sep {
      SplitHead(s[1..], sep);
    }
  }

  /** `strings.TrimPrefix(s, prefix)`: drops one copy of `prefix` when `s` starts with it. */
  function TrimPrefix(s: string, prefix: string): (r: string)
    ensures prefix <= s ==> prefix + r == s
    ensures !(prefix <= s) ==> r == s
  {
    if prefix <= s then s[|prefix|..] else s
  }

  function LowerChar(c: char): (d: char)
    ensures !('A' <= d <= 'Z')
    ensures 'a' <= c <= 'z' ==> d == c
  {
    if 'A' <= c <= 'Z' then (c as int - 'A' as int + 'a' as int) as char else c
  }

  /** `strings.ToLower`, restricted to the ASCII letters. */
  function ToLower(s: string): (r: string)
    ensures |r| == |s|
    ensures forall i :: 0 <= i < |s| ==> r[i] == LowerChar(s[i])
    decreases |s|
  {
    if s == [] then "" else [LowerChar(s[0])] + ToLower(s[1..])
  }

  /** Lower-casing is idempotent. */
  lemma LowerIdempotent(s: string)
    ensures ToLower(ToLower(s)) == ToLower(s)
  {
    var once := ToLower(s);
    assert forall i :: 0 <= i < |once| ==> LowerChar(once[i]) == once[i];
  }

  // ---------------------------------------------------------------- Atoi

  const MaxInt64: int := 0x7FFF_FFFF_FFFF_FFFF
  const MinInt64: int := -0x8000_0000_0000_0000
  const MaxUint64: int := 0xFFFF_FFFF_FFFF_FFFF

  predicate IsDigit(c: char) {
    '0' <= c <= '9'
  }

  function DigitValue(c: char): nat
    requires IsDigit(c)
  {
    c as int - '0' as int
  }

  /** The outcome of scanning an unsigned decimal in Go. */
  datatype Scan = Syntax | Range | Value(n: nat)

  /**
   * `strconv.ParseUint(s, 10, 64)`'s loop, continued from an accumulated
   * value `acc`: a non-digit stops with a syntax error, a value past
   * 2^64 - 1 stops with a range error, whichever comes first.
   */
  function ScanDigits(s: string, acc: nat): (r: Scan)
    requires acc <= MaxUint64
    ensures r.Value? ==> r.n <= MaxUint64
    decreases |s|
  {
    if s == [] then Value(acc)
    else if !IsDigit(s[0]) then Syntax
    else if acc * 10 + DigitValue(s[0]) > MaxUint64 then Range
    else ScanDigits(s[1..], acc * 10 + DigitValue(s[0]))
  }

  /** The value a string of digits denotes. */
  function DecimalValue(s: string): nat
    requires forall i :: 0 <= i < |s| ==> IsDigit(s[i])
    decreases |s|
  {
    if s == [] then 0 else DecimalValue(s[..|s| - 1]) * 10 + DigitValue(s[|s| - 1])
  }

  /**
   * `strconv.Atoi` on a 64-bit platform: an optional sign and at least one
   * digit. A syntax error gives `(0, false)`; a value out of the int64 range
   * gives the nearest bound and `false`.
   */
  function Atoi(s: string): (r: (int, bool))
    ensures MinInt64 <= r.0 <= MaxInt64
    ensures !r.1 && r.0 != MaxInt64 && r.0 != MinInt64 ==> r.0 == 0
  {
    var neg := |s| > 0 && s[0] == '-';
    var digits := if |s| > 0 && (s[0] == '-' || s[0] == '+') then s[1..] else s;
    if digits == [] then (0, false)
    else
      match ScanDigits(digits, 0)
      case Syntax => (0, false)
      case Range => (if neg then MinInt64 else MaxInt64, false)
      case Value(n) =>
        if !neg && n > MaxInt64 then (MaxInt64, false)
        else if neg && n > -MinInt64 then (MinInt64, false)
        else
          var v: int := if neg then -(n as int) else n as int;
          (v, true)
  }

  /** Scanning digits that fit continues the value they denote. */
  lemma {:induction false} ScanDecimal(s: string, acc: nat)
    requires forall i :: 0 <= i < |s| ==> IsDigit(s[i])
    requires acc <= MaxUint64
    ensures ScanDigits(s, acc) == (if Shifted(acc, s) <= MaxUint64 then Value(Shifted(acc, s)) else Range)
    decreases |s|
  {
    if s != [] {
      var next := acc * 10 + DigitValue(s[0]);
      ShiftedStep(acc, s);
      if next > MaxUint64 {
        ShiftedGrows(next, s[1..]);
      } else {
        ScanDecimal(s[1..], next);
      }
    }
  }

  /** `acc` followed by the digits of `s`. */
  function Shifted(acc: nat, s: string): nat
    requires forall i :: 0 <= i < |s| ==> IsDigit(s[i])
    decreases |s|
  {
    if s == [] then acc else Shifted(acc * 10 + DigitValue(s[0]), s[1..])
  }

  lemma {:induction false} ShiftedGrows(acc: nat, s: string)
    requires forall i :: 0 <= i < |s| ==> IsDigit(s[i])
    ensures Shifted(acc, s) >= acc
    decreases |s|
  {
    if s != [] {
      ShiftedGrows(acc * 10 + DigitValue(s[0]), s[1..]);
    }
  }

  lemma ShiftedStep(acc: nat, s: string)
    requires s != [] && forall i :: 0 <= i < |s| ==> IsDigit(s[i])
    ensures Shifted(acc, s) == Shifted(acc * 10 + DigitValue(s[0]), s[1..])
  {
  }

  /** Shifting from zero is the decimal value. */
  lemma {:induction false} ShiftedDecimal(acc: nat, s: string)
    requires forall i :: 0 <= i < |s| ==> IsDigit(s[i])
    ensures Shifted(acc, s) == Power10(|s|) * acc + DecimalValue(s)
    decreases |s|
  {
    if s != [] {
      var d, k := DigitValue(s[0]), |s| - 1;
      ShiftedStep(acc, s);
      ShiftedDecimal(acc * 10 + d, s[1..]);
      DecimalFront(s);
      Spread(Power10(k), acc, d);
      assert Power10(|s|) == 10 * Power10(k);
    }
  }

  lemma Scale(a: nat, q: nat, x: nat)
    ensures (a * q + x) * 10 == a * (10 * q) + x * 10
  {
  }

  lemma Spread(p: nat, a: nat, d: nat)
    ensures p * (a * 10 + d) == (10 * p) * a + d * p
  {
  }

  function Power10(k: nat): nat {
    if k == 0 then 1 else 10 * Power10(k - 1)
  }

  /** The decimal value read from the front: the first digit weighs 10^(|s|-1). */
  lemma {:induction false} DecimalFront(s: string)
    requires s != [] && forall i :: 0 <= i < |s| ==> IsDigit(s[i])
    ensures DecimalValue(s) == DigitValue(s[0]) * Power10(|s| - 1) + DecimalValue(s[1..])
    decreases |s|
  {
    if |s| > 1 {
      var init := s[..|s| - 1];
      DecimalFront(init);
      assert init[1..] == s[1..][..|s[1..]| - 1];
      assert init[0] == s[0];
      assert s[1..][|s[1..]| - 1] == s[|s| - 1];
      Scale(DigitValue(s[0]), Power10(|s| - 2), DecimalValue(init[1..]));
      assert Power10(|s| - 1) == 10 * Power10(|s| - 2);
    } else {
      assert s[..0] == [];
      assert s[1..] == [];
    }
  }

  /** The decimal digits of a natural number, most significant first, no leading zero. */
  function Digits(n: nat): (s: string)
    ensures |s| >= 1
    ensures forall i :: 0 <= i < |s| ==> IsDigit(s[i])
    decreases n
  {
    if n < 10 then [('0' as int + n) as char]
    else Digits(n / 10) + [('0' as int + n % 10) as char]
  }

  lemma {:induction false} DigitsValue(n: nat)
    ensures DecimalValue(Digits(n)) == n
    decreases n
  {
    if n >= 10 {
      DigitsValue(n / 10);
      var s := Digits(n);
      assert s[..|s| - 1] == Digits(n / 10);
    }
  }

  /** `strconv.Itoa`. */
  function Itoa(n: int): string {
    if n < 0 then "-" + Digits(-n) else Digits(n)
  }

  /** `strconv.Atoi` reads back every int64 that `strconv.Itoa` writes. */
  lemma AtoiItoa(n: int)
    requires MinInt64 <= n <= MaxInt64
    ensures Atoi(Itoa(n)) == (n, true)
  {
    var m: nat := if n < 0 then -n else n;
    var digits := Digits(m);
    DigitsValue(m);
    ShiftedDecimal(0, digits);
    ScanDecimal(digits, 0);
    if n < 0 {
      assert Itoa(n)[1..] == digits;
    }
  }
}
