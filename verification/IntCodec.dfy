/** Big-endian two's-complement integers, as Buffer's Int family stores them. */
module IntCodec {
  import opened Common

  datatype Width = W8 | W16 | W32 | W64 {
    function Bytes(): (n: nat)
      ensures 1 <= n <= 8
    {
      match this
      case W8 => 1
      case W16 => 2
      case W32 => 4
      case W64 => 8
    }
  }

  function Pow256(n: nat): (p: nat)
    ensures p >= 1
    ensures n > 0 ==> p % 2 == 0
  {
    if n == 0 then 1 else 256 * Pow256(n - 1)
  }

  /** The n low-order base-256 digits of v, most significant first. */
  function BigEndian(v: nat, n: nat): (s: seq<byte>)
    ensures |s| == n
  {
    if n == 0 then [] else BigEndian(v / 256, n - 1) + [(v % 256) as byte]
  }

  function FromBigEndian(s: seq<byte>): nat {
    if s == [] then 0 else 256 * FromBigEndian(s[..|s| - 1]) + s[|s| - 1] as nat
  }

  /** x is in the range of a signed integer of n bytes. */
  predicate InRange(x: int, n: nat) {
    -(Pow256(n) / 2) <= x < Pow256(n) / 2
  }

  predicate Fits(x: int, w: Width) {
    InRange(x, w.Bytes())
  }

  /** The widths are those of int8_t, int16_t, int32_t and int64_t. */
  lemma FitsExactly(x: int)
    ensures Fits(x, W8) <==> -0x80 <= x < 0x80
    ensures Fits(x, W16) <==> -0x8000 <= x < 0x8000
    ensures Fits(x, W32) <==> -0x8000_0000 <= x < 0x8000_0000
    ensures Fits(x, W64) <==> -0x8000_0000_0000_0000 <= x < 0x8000_0000_0000_0000
  {
    assert Pow256(2) == 0x1_0000;
    assert Pow256(4) == 0x1_0000 * Pow256(2);
    assert Pow256(6) == 0x1_0000 * Pow256(4);
    assert Pow256(8) == 0x1_0000 * Pow256(6);
  }

  /** The n bytes htobeNN and memcpy leave in the buffer for the signed integer x. */
  function TwosComplement(x: int, n: nat): (s: seq<byte>)
    ensures |s| == n
  {
    BigEndian(x % Pow256(n), n)
  }

  function Encode(x: int, w: Width): (s: seq<byte>)
    ensures |s| == w.Bytes()
  {
    TwosComplement(x, w.Bytes())
  }

  function Decode(s: seq<byte>): int {
    var v := FromBigEndian(s);
    if v < Pow256(|s|) / 2 then v else v - Pow256(|s|)
  }

  lemma {:induction false} BigEndianRoundTrip(v: nat, n: nat)
    requires v < Pow256(n)
    ensures FromBigEndian(BigEndian(v, n)) == v
  {
    if n > 0 {
      BigEndianRoundTrip(v / 256, n - 1);
      var s := BigEndian(v, n);
      assert s[..n - 1] == BigEndian(v / 256, n - 1);
    }
  }

  lemma {:induction false} FromBigEndianRoundTrip(s: seq<byte>)
    ensures FromBigEndian(s) < Pow256(|s|)
    ensures BigEndian(FromBigEndian(s), |s|) == s
  {
    if s != [] {
      var init, last := s[..|s| - 1], s[|s| - 1];
      FromBigEndianRoundTrip(init);
      assert FromBigEndian(s) / 256 == FromBigEndian(init);
      assert (FromBigEndian(s) % 256) as byte == last;
      assert s == init + [last];
    }
  }

  lemma MoreTimes(d: nat, a: nat, b: nat)
    requires a < b
    ensures d * a + d <= d * b
  {
    var more := b - a - 1;
    assert d * more >= 0;
    assert b == a + 1 + more;
    assert d * b == d * a + d + d * more;
  }

  lemma QuotientUnique(v: nat, d: nat, q: nat, r: nat)
    requires r < d && v == d * q + r
    ensures v / d == q
  {
    var u := v / d;
    assert v == d * u + v % d;
    if u < q {
      MoreTimes(d, u, q);
    } else if q < u {
      MoreTimes(d, q, u);
    }
  }

  lemma DivideTwice(v: nat, p: nat)
    requires p > 0
    ensures v / 256 / p == v / (256 * p)
  {
    var a, q := v / 256, v / 256 / p;
    assert v == 256 * a + v % 256 && a == p * q + a % p;
    QuotientUnique(v, 256 * p, q, 256 * (a % p) + v % 256);
  }

  /** The byte at i counts multiples of the power of 256 that its place from the end says: most significant first. */
  lemma {:induction false} DigitAt(v: nat, n: nat, i: nat)
    requires i < n
    ensures BigEndian(v, n)[i] as nat == v / Pow256(n - 1 - i) % 256
  {
    if i < n - 1 {
      DigitAt(v / 256, n - 1, i);
      DivideTwice(v, Pow256(n - 2 - i));
    }
  }

  lemma WrapAround(x: int, p: int)
    requires 0 < p && -p <= x < p
    ensures x % p == if x < 0 then x + p else x
  {
    if x < 0 {
      assert x == (-1) * p + (x + p);
    }
  }

  /** What is written is read back, negative values included. */
  lemma DecodeEncode(x: int, n: nat)
    requires n > 0 && InRange(x, n)
    ensures Decode(TwosComplement(x, n)) == x
  {
    WrapAround(x, Pow256(n));
    BigEndianRoundTrip(x % Pow256(n), n);
  }

  /** Conversely, every byte string is the encoding of exactly the integer it decodes to. */
  lemma EncodeDecode(s: seq<byte>)
    requires s != []
    ensures InRange(Decode(s), |s|)
    ensures TwosComplement(Decode(s), |s|) == s
  {
    FromBigEndianRoundTrip(s);
    WrapAround(Decode(s), Pow256(|s|));
  }

  datatype Sized = Sized(value: int, width: Width)

  /** A list of integers of mixed widths, appended one after the other. */
  function EncodeAll(xs: seq<Sized>): seq<byte> {
    if xs == [] then [] else Encode(xs[0].value, xs[0].width) + EncodeAll(xs[1..])
  }

  /** Reading integers of the given widths off the front: the values and what is left. */
  function DecodeAll(ws: seq<Width>, s: seq<byte>): (seq<int>, seq<byte>) {
    if ws == [] || |s| < ws[0].Bytes() then ([], s)
    else
      var (values, rest) := DecodeAll(ws[1..], s[ws[0].Bytes()..]);
      ([Decode(s[..ws[0].Bytes()])] + values, rest)
  }

  function Widths(xs: seq<Sized>): seq<Width> {
    seq(|xs|, i requires 0 <= i < |xs| => xs[i].width)
  }

  function Values(xs: seq<Sized>): seq<int> {
    seq(|xs|, i requires 0 <= i < |xs| => xs[i].value)
  }

  lemma DecodeHead(ws: seq<Width>, head: seq<byte>, tail: seq<byte>)
    requires ws != [] && |head| == ws[0].Bytes()
    ensures var (values, rest) := DecodeAll(ws[1..], tail);
            DecodeAll(ws, head + tail) == ([Decode(head)] + values, rest)
  {
    assert (head + tail)[..|head|] == head && (head + tail)[|head|..] == tail;
  }

  lemma ListHead(xs: seq<Sized>)
    requires xs != []
    ensures Widths(xs) != [] && Widths(xs)[0] == xs[0].width && Widths(xs)[1..] == Widths(xs[1..])
    ensures Values(xs) == [xs[0].value] + Values(xs[1..])
  {
  }

  lemma EncodingHead(xs: seq<Sized>, rest: seq<byte>)
    requires xs != []
    ensures EncodeAll(xs) + rest == Encode(xs[0].value, xs[0].width) + (EncodeAll(xs[1..]) + rest)
  {
  }

  /** Any list of mixed-width integers reads back as the same list and leaves what follows it alone. */
  lemma {:induction false} ReadBack(xs: seq<Sized>, rest: seq<byte>)
    requires forall i :: 0 <= i < |xs| ==> Fits(xs[i].value, xs[i].width)
    ensures DecodeAll(Widths(xs), EncodeAll(xs) + rest) == (Values(xs), rest)
  {
    if xs == [] {
      assert EncodeAll(xs) + rest == rest && Widths(xs) == [] && Values(xs) == [];
    } else {
      var head := Encode(xs[0].value, xs[0].width);
      DecodeEncode(xs[0].value, xs[0].width.Bytes());
      assert Decode(head) == xs[0].value;
      ReadBack(xs[1..], rest);
      ListHead(xs);
      EncodingHead(xs, rest);
      DecodeHead(Widths(xs), head, EncodeAll(xs[1..]) + rest);
    }
  }
}
