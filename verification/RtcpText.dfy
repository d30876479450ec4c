/** What the parser takes for text: the UTF-8 of Unicode scalar values, and nothing
    else. */
module RtcpText {
  import opened Words
  import opened RtcpCodec

  /** A code point that is not a surrogate. */
  type Scalar = x: int | 0 <= x <= 0xD7FF || 0xE000 <= x <= 0x10_FFFF

  /** The bytes of a scalar value, as section 3 of RFC 3629 lays them out. */
  function Utf8(x: Scalar): (r: Bytes)
    ensures 1 <= |r| <= 4
  {
    if x < 0x80 then [x]
    else if x < 0x800 then [0xC0 + x / 64, 0x80 + x % 64]
    else if x < 0x1_0000 then [0xE0 + x / 4096, 0x80 + x / 64 % 64, 0x80 + x % 64]
    else [0xF0 + x / 262144, 0x80 + x / 4096 % 64, 0x80 + x / 64 % 64, 0x80 + x % 64]
  }

  function Utf8All(xs: seq<Scalar>): Bytes {
    if xs == [] then [] else Utf8(xs[0]) + Utf8All(xs[1..])
  }

  lemma {:induction false} Digits64(x: nat)
    ensures x == x / 64 * 64 + x % 64 && x / 4096 == x / 64 / 64 && x / 262144 == x / 4096 / 64
    ensures x / 64 == x / 4096 * 64 + x / 64 % 64 && x / 4096 == x / 262144 * 64 + x / 4096 % 64
  {
  }

  lemma {:induction false} LeadOfScalar(x: Scalar, rest: Bytes)
    ensures Utf8Lead(Utf8(x) + rest) == |Utf8(x)|
  {
    Digits64(x);
    var s := Utf8(x) + rest;
    if x < 0x80 {
      assert s[0] == x;
    } else if x < 0x800 {
      assert s[0] == 0xC0 + x / 64 && s[1] == 0x80 + x % 64;
    } else if x < 0x1_0000 {
      assert s[0] == 0xE0 + x / 4096 && s[1] == 0x80 + x / 64 % 64 && s[2] == 0x80 + x % 64;
    } else {
      assert s[0] == 0xF0 + x / 262144 && s[1] == 0x80 + x / 4096 % 64;
      assert s[2] == 0x80 + x / 64 % 64 && s[3] == 0x80 + x % 64;
    }
  }

  /** The number that digits to the base of 64 write. */
  lemma {:induction false} FromDigits64(a: nat, b: nat, c: nat, e: nat)
    requires b < 64 && c < 64 && e < 64
    ensures var x := ((a * 64 + b) * 64 + c) * 64 + e;
      x % 64 == e && x / 64 % 64 == c && x / 4096 % 64 == b && x / 262144 == a
      && x / 64 == (a * 64 + b) * 64 + c && x / 4096 == a * 64 + b
  {
  }

  /** Every well-formed beginning is that of a scalar value. */
  lemma {:induction false} LeadIsScalar(s: Bytes) returns (x: Scalar)
    requires Utf8Lead(s) > 0
    ensures Utf8(x) == s[..Utf8Lead(s)]
  {
    var n := Utf8Lead(s);
    var a: int := s[0];
    if n == 1 {
      x := a;
    } else if n == 2 {
      var b: int := s[1];
      FromDigits64(0, 0, a - 0xC0, b - 0x80);
      x := (a - 0xC0) * 64 + (b - 0x80);
    } else if n == 3 {
      var b: int, c: int := s[1], s[2];
      FromDigits64(0, a - 0xE0, b - 0x80, c - 0x80);
      x := ((a - 0xE0) * 64 + (b - 0x80)) * 64 + (c - 0x80);
    } else {
      var b: int, c: int, e: int := s[1], s[2], s[3];
      FromDigits64(a - 0xF0, b - 0x80, c - 0x80, e - 0x80);
      x := (((a - 0xF0) * 64 + (b - 0x80)) * 64 + (c - 0x80)) * 64 + (e - 0x80);
    }
  }

  lemma {:induction false} ScalarsAreValid(xs: seq<Scalar>)
    ensures ValidUtf8(Utf8All(xs))
  {
    hide Utf8Lead, Utf8;
    if xs == [] {
    } else {
      LeadOfScalar(xs[0], Utf8All(xs[1..]));
      ScalarsAreValid(xs[1..]);
      assert Utf8All(xs)[|Utf8(xs[0])|..] == Utf8All(xs[1..]);
    }
  }

  lemma {:induction false} ValidIsScalars(s: Bytes) returns (xs: seq<Scalar>)
    requires ValidUtf8(s)
    ensures Utf8All(xs) == s
  {
    hide Utf8Lead, Utf8;
    if s == [] {
      xs := [];
    } else {
      var x := LeadIsScalar(s);
      var rest := ValidIsScalars(s[Utf8Lead(s)..]);
      xs := [x] + rest;
      assert xs[1..] == rest && s == s[..Utf8Lead(s)] + s[Utf8Lead(s)..];
    }
  }

  /** A text is taken if and only if it is the UTF-8 of some scalar values. */
  lemma {:induction false} TextIffScalars(s: Bytes)
    ensures FromUtf8(s) == Some(s) <==> exists xs :: Utf8All(xs) == s
    ensures FromUtf8(s) == Some(s) || FromUtf8(s) == None
  {
    if ValidUtf8(s) {
      var xs := ValidIsScalars(s);
    } else if xs :| Utf8All(xs) == s {
      ScalarsAreValid(xs);
    }
  }
}
