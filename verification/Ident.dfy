/** Identifier generation: a version 4 UUID (section 5.4 of RFC 9562) from 16 random bytes. */
module Ident {
  import opened Domain

  type Byte = n: int | 0 <= n < 256

  type Bytes16 = b: seq<Byte> | |b| == 16 witness seq(16, _ => 0)

  /** Byte 6 keeps its low four bits under the version 0100, byte 8 its low six under the variant 10. */
  function Stamped(b: Bytes16): Bytes16 {
    b[6 := b[6] % 16 + 64][8 := b[8] % 64 + 128]
  }

  function HexDigit(n: int): (c: char)
    requires 0 <= n < 16
    ensures IsHex(c)
  {
    if n < 10 then '0' + n as char else 'a' + (n - 10) as char
  }

  function Hex(b: seq<Byte>): (s: string)
    ensures |s| == 2 * |b|
    ensures forall i | 0 <= i < |b| :: s[2 * i] == HexDigit(b[i] / 16) && s[2 * i + 1] == HexDigit(b[i] % 16)
    ensures AllHex(s)
  {
    seq(2 * |b|, i requires 0 <= i < 2 * |b| =>
      HexDigit(if i % 2 == 0 then b[i / 2] / 16 else b[i / 2] % 16))
  }

  function NewID(b: Bytes16): (id: string)
    ensures |id| == ID_LENGTH
  {
    Dashed(Hex(Stamped(b)))
  }

  function Dashed(s: string): (id: string)
    requires |s| == 32
    ensures |id| == ID_LENGTH
    ensures forall i | i in {8, 13, 18, 23} :: id[i] == '-'
    ensures id[..8] == s[..8] && id[9..13] == s[8..12] && id[14..18] == s[12..16] && id[19..23] == s[16..20]
    ensures id[24..] == s[20..]
  {
    s[..8] + "-" + s[8..12] + "-" + s[12..16] + "-" + s[16..20] + "-" + s[20..]
  }

  lemma HexInjective(b: seq<Byte>, c: seq<Byte>)
    requires Hex(b) == Hex(c)
    ensures b == c
  {
    assert 2 * |b| == |Hex(b)| == 2 * |c|;
    forall i | 0 <= i < |b| ensures b[i] == c[i] {
      assert Hex(b)[2 * i] == Hex(c)[2 * i] && Hex(b)[2 * i + 1] == Hex(c)[2 * i + 1];
    }
  }

  function Groups(id: string): string
    requires |id| == ID_LENGTH
  {
    id[..8] + id[9..13] + id[14..18] + id[19..23] + id[24..]
  }

  lemma Undashed(s: string)
    requires |s| == 32
    ensures Groups(Dashed(s)) == s
  {
  }

  /** The textual layout: dashes at 8, 13, 18 and 23, hexadecimal digits elsewhere, version 4, variant 8, 9, a or b. */
  lemma Layout(b: Bytes16)
    ensures var id := NewID(b);
            && id[8] == id[13] == id[18] == id[23] == '-' && AllHex(Groups(id))
            && id[14] == '4' && id[19] in {'8', '9', 'a', 'b'}
  {
  }

  /** Two draws give the same identifier exactly when they agree on the 122 random bits. */
  lemma CollidesIff(b: Bytes16, c: Bytes16)
    ensures NewID(b) == NewID(c) <==> SameRandomBits(b, c)
  {
    StampedIff(b, c);
    Undashed(Hex(Stamped(b)));
    Undashed(Hex(Stamped(c)));
    if NewID(b) == NewID(c) {
      HexInjective(Stamped(b), Stamped(c));
    }
  }

  predicate SameRandomBits(b: Bytes16, c: Bytes16) {
    b[6] % 16 == c[6] % 16 && b[8] % 64 == c[8] % 64 && forall i | 0 <= i < 16 && i != 6 && i != 8 :: b[i] == c[i]
  }

  lemma StampedIff(b: Bytes16, c: Bytes16)
    ensures Stamped(b) == Stamped(c) <==> SameRandomBits(b, c)
  {
    var x, y := Stamped(b), Stamped(c);
    if SameRandomBits(b, c) {
      assert forall i | 0 <= i < 16 :: x[i] == y[i];
    }
    if x == y {
      assert x[6] == y[6] && x[8] == y[8];
      forall i | 0 <= i < 16 && i != 6 && i != 8 ensures b[i] == c[i] { assert x[i] == y[i]; }
    }
  }
}
