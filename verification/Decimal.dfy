/** Unsigned decimal numbers as text. */
module Decimal {

  function Digit(d: int): char
    requires 0 <= d <= 9
  {
    '0' + d as char
  }

  /** Decimal digits, zero-padded to at least `width`. */
  function Pad(n: nat, width: nat): string
    decreases n, width
  {
    if n == 0 && width == 0 then "" else Pad(n / 10, if width == 0 then 0 else width - 1) + [Digit(n % 10)]
  }

  function PadSigned(n: int, width: nat): string {
    if n < 0 then "-" + Pad(-n, if width == 0 then 0 else width - 1) else Pad(n, width)
  }

  function Pow10(w: nat): nat {
    if w == 0 then 1 else 10 * Pow10(w - 1)
  }

  predicate IsDigit(c: char) {
    '0' <= c <= '9'
  }

  predicate AllDigits(s: string) {
    forall i :: 0 <= i < |s| ==> IsDigit(s[i])
  }

  function Value(s: string): nat
    requires AllDigits(s)
  {
    if s == "" then 0 else 10 * Value(s[..|s| - 1]) + (s[|s| - 1] as int - '0' as int)
  }

  /** What is printed reads back. */
  lemma {:induction false} PadReads(n: nat, width: nat)
    ensures AllDigits(Pad(n, width)) && Value(Pad(n, width)) == n && |Pad(n, width)| >= width
    decreases n, width
  {
    if n > 0 || width > 0 {
      var rest := if width == 0 then 0 else width - 1;
      PadReads(n / 10, rest);
      var s := Pad(n, width);
      assert s[..|s| - 1] == Pad(n / 10, rest);
    }
  }

  /** Digits are the print of their value, padded to their number. */
  lemma {:induction false} ReadsPad(s: string)
    requires AllDigits(s)
    ensures Pad(Value(s), |s|) == s
  {
    if s != "" {
      var rest, d := s[..|s| - 1], s[|s| - 1] as int - '0' as int;
      ReadsPad(rest);
      assert Value(s) / 10 == Value(rest) && Value(s) % 10 == d;
      assert s == rest + [Digit(d)];
    }
  }

  lemma {:induction false} PadFits(n: nat, width: nat)
    requires n < Pow10(width)
    ensures |Pad(n, width)| == width && AllDigits(Pad(n, width)) && Value(Pad(n, width)) == n
    decreases width
  {
    PadReads(n, width);
    if width > 0 {
      PadFits(n / 10, width - 1);
    }
  }

  lemma {:induction false} PadOverflows(n: nat, width: nat)
    requires n >= Pow10(width)
    ensures |Pad(n, width)| > width
    decreases width
  {
    if width > 0 {
      PadOverflows(n / 10, width - 1);
    }
  }
}
