/** Bytes, their order, and fixed-width integers made of them. */
module Bytes {

  type Byte = b: int | 0 <= b < 256

  // ----- Big-endian values -----

  function Pow256(width: nat): nat {
    if width == 0 then 1 else 256 * Pow256(width - 1)
  }

  /** The low `width` bytes of a number, most significant first. */
  function ToBe(n: nat, width: nat): (b: seq<Byte>)
    ensures |b| == width
  {
    if width == 0 then [] else ToBe(n / 256, width - 1) + [n % 256]
  }

  function OfBe(b: seq<Byte>): nat {
    if b == [] then 0 else 256 * OfBe(b[..|b| - 1]) + b[|b| - 1] as int
  }

  lemma {:induction false} OfToBe(n: nat, width: nat)
    requires n < Pow256(width)
    ensures OfBe(ToBe(n, width)) == n
  {
    if width > 0 {
      OfToBe(n / 256, width - 1);
      assert ToBe(n, width)[..width - 1] == ToBe(n / 256, width - 1);
    }
  }

  lemma {:induction false} ToOfBe(b: seq<Byte>)
    ensures OfBe(b) < Pow256(|b|)
    ensures ToBe(OfBe(b), |b|) == b
  {
    if b != [] {
      ToOfBe(b[..|b| - 1]);
      assert OfBe(b) / 256 == OfBe(b[..|b| - 1]);
    }
  }

  // ----- Little-endian values -----

  /** The unsigned little-endian value of the bytes. */
  function OfLe(b: seq<Byte>): (n: nat) {
    if b == [] then 0 else b[0] as int + 256 * OfLe(b[1..])
  }

  // ----- Byte order -----

  predicate Before(a: seq<Byte>, b: seq<Byte>) {
    b != [] && (a == [] || a[0] < b[0] || (a[0] == b[0] && Before(a[1..], b[1..])))
  }

  lemma {:induction false} BeforeIsTotal(a: seq<Byte>, b: seq<Byte>)
    ensures Before(a, b) || a == b || Before(b, a)
  {
    if a != [] && b != [] && a[0] == b[0] {
      BeforeIsTotal(a[1..], b[1..]);
      assert a == [a[0]] + a[1..] && b == [b[0]] + b[1..];
    }
  }

  lemma {:induction false} BeforeIsStrict(a: seq<Byte>, b: seq<Byte>)
    requires Before(a, b)
    ensures a != b && !Before(b, a)
  {
    if a != [] && a[0] == b[0] {
      BeforeIsStrict(a[1..], b[1..]);
    }
  }

  lemma {:induction false} BeforeIsTransitive(a: seq<Byte>, b: seq<Byte>, c: seq<Byte>)
    requires Before(a, b) && Before(b, c)
    ensures Before(a, c)
  {
    if a != [] && a[0] == b[0] && b[0] == c[0] {
      BeforeIsTransitive(a[1..], b[1..], c[1..]);
    }
  }
}
