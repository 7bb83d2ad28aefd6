/** Octets and the fixed-width big-endian integers of the wire formats. */
module Bytes {
  type byte = x: int | 0 <= x < 256

  const TWO16: nat := 0x1_0000
  const TWO32: nat := 0x1_0000_0000
  const TWO64: nat := 0x1_0000_0000_0000_0000

  type uint16 = x: int | 0 <= x < TWO16
  type uint32 = x: int | 0 <= x < TWO32
  type uint64 = x: int | 0 <= x < TWO64

  datatype Option<+T> = None | Some(value: T)

  function Pow256(width: nat): (r: nat)
    ensures r >= 1
  {
    if width == 0 then 1 else 256 * Pow256(width - 1)
  }

  /** The low `width` octets of `n`, most significant first. */
  function BE(n: nat, width: nat): (s: seq<byte>)
    ensures |s| == width
    decreases n, width
  {
    if width == 0 then [] else BE(n / 256, width - 1) + [n % 256]
  }

  function FromBE(s: seq<byte>): (n: nat)
    ensures n < Pow256(|s|)
  {
    if s == [] then 0
    else
      var high := FromBE(s[..|s| - 1]);
      high * 256 + s[|s| - 1]
  }

  lemma Widths()
    ensures Pow256(2) == TWO16 && Pow256(4) == TWO32 && Pow256(8) == TWO64
  {
    assert Pow256(1) == 256;
    assert Pow256(2) == 256 * Pow256(1);
    assert Pow256(3) == 256 * Pow256(2);
    assert Pow256(4) == 256 * Pow256(3);
    assert Pow256(5) == 256 * Pow256(4);
    assert Pow256(6) == 256 * Pow256(5);
    assert Pow256(7) == 256 * Pow256(6);
    assert Pow256(8) == 256 * Pow256(7);
  }

  lemma {:induction false} FromBEofBE(n: nat, width: nat)
    requires n < Pow256(width)
    ensures FromBE(BE(n, width)) == n
    decreases width
  {
    if width > 0 {
      FromBEofBE(n / 256, width - 1);
      assert BE(n, width)[..width - 1] == BE(n / 256, width - 1);
    }
  }

  lemma {:induction false} BEofFromBE(s: seq<byte>)
    ensures BE(FromBE(s), |s|) == s
  {
    if s != [] {
      BEofFromBE(s[..|s| - 1]);
      assert s == s[..|s| - 1] + [s[|s| - 1]];
    }
  }

  /** The first octet is the most significant. */
  lemma {:induction false} BigEndian(b: byte, s: seq<byte>)
    ensures FromBE([b] + s) == b * Pow256(|s|) + FromBE(s)
  {
    if s == [] {
      assert [b] + s == [b] && [b][..0] == [];
    } else {
      var front, last := s[..|s| - 1], s[|s| - 1];
      BigEndian(b, front);
      assert ([b] + s)[..|s|] == [b] + front;
      Shift(b, Pow256(|front|), FromBE(front), last);
    }
  }

  lemma Shift(b: int, p: int, n: int, last: int)
    ensures (b * p + n) * 256 + last == b * (256 * p) + (n * 256 + last)
  {
  }

  /** Both directions at the three widths in use. */
  lemma Fixed(n: nat, s: seq<byte>)
    ensures n < TWO16 ==> FromBE(BE(n, 2)) == n
    ensures n < TWO32 ==> FromBE(BE(n, 4)) == n
    ensures n < TWO64 ==> FromBE(BE(n, 8)) == n
    ensures |s| == 2 ==> FromBE(s) < TWO16 && BE(FromBE(s), 2) == s
    ensures |s| == 4 ==> FromBE(s) < TWO32 && BE(FromBE(s), 4) == s
    ensures |s| == 8 ==> FromBE(s) < TWO64 && BE(FromBE(s), 8) == s
  {
    Widths();
    if n < TWO16 { FromBEofBE(n, 2); }
    if n < TWO32 { FromBEofBE(n, 4); }
    if n < TWO64 { FromBEofBE(n, 8); }
    BEofFromBE(s);
  }
}
