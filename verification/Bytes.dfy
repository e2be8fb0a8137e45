/** Bytes, 32-bit words and the two byte orders the firmware writes. */
module Bytes {

  type byte = b: int | 0 <= b < 256
  type word = w: int | 0 <= w < 0x1_0000_0000

  datatype Option<+T> = None | Some(value: T)

  function Zeros(n: nat): (s: seq<byte>)
    ensures |s| == n
    ensures forall i :: 0 <= i < n ==> s[i] == 0
  {
    seq(n, i => 0)
  }

  /** One more than the largest number n bytes can hold. */
  function Span(n: nat): nat {
    if n == 0 then 1 else 256 * Span(n - 1)
  }

  /** Least significant byte first. */
  function LeBytes(w: nat, n: nat): (s: seq<byte>)
    ensures |s| == n
  {
    if n == 0 then [] else [w % 256] + LeBytes(w / 256, n - 1)
  }

  function FromLe(s: seq<byte>): (w: nat)
    ensures w < Span(|s|)
  {
    if s == [] then 0 else s[0] + 256 * FromLe(s[1..])
  }

  /** Most significant byte first. */
  function BeBytes(w: nat, n: nat): (s: seq<byte>)
    ensures |s| == n
  {
    if n == 0 then [] else BeBytes(w / 256, n - 1) + [w % 256]
  }

  function FromBe(s: seq<byte>): (w: nat)
    ensures w < Span(|s|)
  {
    if s == [] then 0 else 256 * FromBe(s[..|s| - 1]) + s[|s| - 1]
  }

  lemma {:induction false} LeRoundTrip(w: nat, n: nat)
    requires w < Span(n)
    ensures FromLe(LeBytes(w, n)) == w
  {
    if n > 0 {
      LeRoundTrip(w / 256, n - 1);
      assert LeBytes(w, n)[1..] == LeBytes(w / 256, n - 1);
    }
  }

  lemma {:induction false} LeCanonical(s: seq<byte>)
    ensures LeBytes(FromLe(s), |s|) == s
  {
    if s != [] {
      LeCanonical(s[1..]);
      assert FromLe(s) % 256 == s[0] && FromLe(s) / 256 == FromLe(s[1..]);
    }
  }

  lemma {:induction false} BeRoundTrip(w: nat, n: nat)
    requires w < Span(n)
    ensures FromBe(BeBytes(w, n)) == w
  {
    if n > 0 {
      BeRoundTrip(w / 256, n - 1);
      assert BeBytes(w, n)[..n - 1] == BeBytes(w / 256, n - 1);
    }
  }

  lemma Span4()
    ensures Span(4) == 0x1_0000_0000
  {
    assert Span(1) == 256 && Span(2) == 0x1_0000 && Span(3) == 0x100_0000;
  }

  function Be32(w: word): (s: seq<byte>)
    ensures |s| == 4
  {
    BeBytes(w, 4)
  }

  function FromBe32(s: seq<byte>): (w: word)
    requires |s| == 4
  {
    Span4();
    FromBe(s)
  }

  function Le32(w: word): (s: seq<byte>)
    ensures |s| == 4
  {
    LeBytes(w, 4)
  }

  function FromLe32(s: seq<byte>): (w: word)
    requires |s| == 4
  {
    Span4();
    FromLe(s)
  }

  /** Four bytes in each order, digit by digit. */
  lemma FourBytes(s: seq<byte>)
    requires |s| == 4
    ensures FromBe32(s) == 0x100_0000 * s[0] as int + 0x1_0000 * s[1] as int + 0x100 * s[2] as int + s[3] as int
    ensures FromLe32(s) == s[0] as int + 0x100 * s[1] as int + 0x1_0000 * s[2] as int + 0x100_0000 * s[3] as int
  {
    assert s[1..][1..] == s[2..] && s[2..][1..] == s[3..] && s[3..][1..] == [];
    assert FromLe(s[3..]) == s[3] && FromLe(s[2..]) == s[2] + 256 * FromLe(s[3..]);
    assert FromLe(s[1..]) == s[1] + 256 * FromLe(s[2..]) && FromLe(s) == s[0] + 256 * FromLe(s[1..]);
    assert s[..3][..2] == s[..2] && s[..2][..1] == s[..1] && s[..1][..0] == [];
    assert FromBe(s[..1]) == s[0] && FromBe(s[..2]) == 256 * FromBe(s[..1]) + s[1];
    assert FromBe(s[..3]) == 256 * FromBe(s[..2]) + s[2] && FromBe(s) == 256 * FromBe(s[..3]) + s[3];
  }

  lemma Be32RoundTrip(w: word)
    ensures FromBe32(Be32(w)) == w
  {
    Span4();
    BeRoundTrip(w, 4);
  }

  lemma Le32RoundTrip(w: word)
    ensures FromLe32(Le32(w)) == w
  {
    Span4();
    LeRoundTrip(w, 4);
  }

  lemma Le32Canonical(s: seq<byte>)
    requires |s| == 4
    ensures Le32(FromLe32(s)) == s
  {
    LeCanonical(s);
  }
}
