/** The packed 32-byte CCNI header and its byte layout. */
module Header {

  type byte = x: int | 0 <= x < 256

  /** Values of k bytes: u16, u32 and u64 of the source. */
  type u16 = x: int | 0 <= x < 0x1_0000
  type u32 = x: int | 0 <= x < 0x1_0000_0000
  type u64 = x: int | 0 <= x < 0x1_0000_0000_0000_0000

  const HEADER_LEN: nat := 32

  /** CCNI_MAX_LEN: bodies are shorter than this. */
  const MAX_LEN: nat := 0x8000

  datatype Header = Header(
    hdlen: byte, verMajor: byte, verMinor: byte, kind: byte, datalen: u16,
    seqno: u32, udata: u32, secret1: u64, secret2: u64, reserved: u16)

  /** CCNI_HEADER(): zeroed, then the length and the major version set. */
  const BLANK: Header := Header(32, 1, 0, 0, 0, 0, 0, 0, 0, 0)

  predicate Verify(h: Header) {
    h.hdlen == HEADER_LEN && h.verMajor == 1 && h.verMinor == 0 && h.datalen < MAX_LEN
  }

  // ----- little-endian fields --------------------------------------------------

  function Range(k: nat): (r: nat)
    ensures r > 0
  {
    if k == 0 then 1 else 256 * Range(k - 1)
  }

  function ToBytes(x: nat, k: nat): (r: seq<byte>)
    ensures |r| == k
  {
    if k == 0 then [] else [x % 256] + ToBytes(x / 256, k - 1)
  }

  function FromBytes(s: seq<byte>): nat {
    if s == [] then 0 else s[0] + 256 * FromBytes(s[1..])
  }

  lemma {:induction false} FromToBytes(x: nat, k: nat)
    requires x < Range(k)
    ensures FromBytes(ToBytes(x, k)) == x
  {
    if k > 0 {
      FromToBytes(x / 256, k - 1);
      assert ToBytes(x, k)[1..] == ToBytes(x / 256, k - 1);
    }
  }

  lemma {:induction false} ToFromBytes(s: seq<byte>)
    ensures FromBytes(s) < Range(|s|)
    ensures ToBytes(FromBytes(s), |s|) == s
  {
    if s != [] {
      ToFromBytes(s[1..]);
      assert FromBytes(s) % 256 == s[0];
      assert FromBytes(s) / 256 == FromBytes(s[1..]);
      assert s == [s[0]] + s[1..];
    }
  }

  lemma Ranges()
    ensures Range(2) == 0x1_0000
    ensures Range(4) == 0x1_0000_0000
    ensures Range(8) == 0x1_0000_0000_0000_0000
  {
    assert Range(1) == 256;
    assert Range(3) == 256 * Range(2);
    assert Range(4) == 256 * Range(3);
    assert Range(5) == 256 * Range(4);
    assert Range(6) == 256 * Range(5);
    assert Range(7) == 256 * Range(6);
    assert Range(8) == 256 * Range(7);
  }

  function Encode(h: Header): (r: seq<byte>)
    ensures |r| == HEADER_LEN
  {
    [h.hdlen, h.verMajor, h.verMinor, h.kind] + (ToBytes(h.datalen, 2) + (ToBytes(h.seqno, 4) + (ToBytes(h.udata, 4)
    + (ToBytes(h.secret1, 8) + (ToBytes(h.secret2, 8) + ToBytes(h.reserved, 2))))))
  }

  function Field16(s: seq<byte>): u16
    requires |s| == 2
  {
    Ranges(); ToFromBytes(s); FromBytes(s)
  }

  function Field32(s: seq<byte>): u32
    requires |s| == 4
  {
    Ranges(); ToFromBytes(s); FromBytes(s)
  }

  function Field64(s: seq<byte>): u64
    requires |s| == 8
  {
    Ranges(); ToFromBytes(s); FromBytes(s)
  }

  function Decode(b: seq<byte>): Header
    requires |b| == HEADER_LEN
  {
    var b1 := b[4..];
    var b2 := b1[2..];
    var b3 := b2[4..];
    var b4 := b3[4..];
    var b5 := b4[8..];
    Header(b[0], b[1], b[2], b[3], Field16(b1[..2]), Field32(b2[..4]), Field32(b3[..4]),
           Field64(b4[..8]), Field64(b5[..8]), Field16(b5[8..]))
  }

  lemma TakeDrop(m: seq<byte>, z: seq<byte>)
    ensures (m + z)[..|m|] == m && (m + z)[|m|..] == z
  {
  }

  lemma DecodeEncode(h: Header)
    ensures Decode(Encode(h)) == h
  {
    Ranges();
    var d, s, u := ToBytes(h.datalen, 2), ToBytes(h.seqno, 4), ToBytes(h.udata, 4);
    var k1, k2, r := ToBytes(h.secret1, 8), ToBytes(h.secret2, 8), ToBytes(h.reserved, 2);
    TakeDrop([h.hdlen, h.verMajor, h.verMinor, h.kind], d + (s + (u + (k1 + (k2 + r)))));
    TakeDrop(d, s + (u + (k1 + (k2 + r))));
    TakeDrop(s, u + (k1 + (k2 + r)));
    TakeDrop(u, k1 + (k2 + r));
    TakeDrop(k1, k2 + r);
    TakeDrop(k2, r);
    FromToBytes(h.datalen, 2);
    FromToBytes(h.seqno, 4);
    FromToBytes(h.udata, 4);
    FromToBytes(h.secret1, 8);
    FromToBytes(h.secret2, 8);
    FromToBytes(h.reserved, 2);
  }

  lemma Rejoin(b: seq<byte>, n: nat)
    requires n <= |b|
    ensures b[..n] + b[n..] == b
  {
  }

  /** The layout has no gaps: every 32 bytes are the image of one header. */
  lemma EncodeDecode(b: seq<byte>)
    requires |b| == HEADER_LEN
    ensures Encode(Decode(b)) == b
  {
    var b1 := b[4..];
    var b2 := b1[2..];
    var b3 := b2[4..];
    var b4 := b3[4..];
    var b5 := b4[8..];
    ToFromBytes(b1[..2]);
    ToFromBytes(b2[..4]);
    ToFromBytes(b3[..4]);
    ToFromBytes(b4[..8]);
    ToFromBytes(b5[..8]);
    ToFromBytes(b5[8..]);
    Rejoin(b5, 8);
    Rejoin(b4, 8);
    Rejoin(b3, 4);
    Rejoin(b2, 4);
    Rejoin(b1, 2);
    Rejoin(b, 4);
    assert [b[0], b[1], b[2], b[3]] == b[..4];
  }

  // ----- the fields the framing looks at, straight from the bytes --------------------

  /** The datalen field of a raw header. */
  function BodyLen(b: seq<byte>): (n: nat)
    requires |b| == HEADER_LEN
  {
    (b[4] as int) + 256 * (b[5] as int)
  }

  /** verify() on a raw header. */
  predicate HeaderOk(b: seq<byte>)
    requires |b| == HEADER_LEN
  {
    b[0] == HEADER_LEN && b[1] == 1 && b[2] == 0 && BodyLen(b) < MAX_LEN
  }

  lemma RawFields(b: seq<byte>)
    requires |b| == HEADER_LEN
    ensures BodyLen(b) == Decode(b).datalen
    ensures HeaderOk(b) <==> Verify(Decode(b))
  {
    var f := b[4..][..2];
    assert f[1..][1..] == [];
    assert FromBytes(f) == f[0] + 256 * FromBytes(f[1..]);
  }

  // ----- where the fields stand ------------------------------------------------------------

  /** The number whose bytes stand from position i on, lowest first. */
  function Le16(b: seq<byte>, i: nat): nat
    requires i + 2 <= |b|
  {
    b[i] as int + 0x100 * b[i + 1] as int
  }

  function Le32(b: seq<byte>, i: nat): nat
    requires i + 4 <= |b|
  {
    Le16(b, i) + 0x1_0000 * Le16(b, i + 2)
  }

  function Le64(b: seq<byte>, i: nat): nat
    requires i + 8 <= |b|
  {
    Le32(b, i) + 0x1_0000_0000 * Le32(b, i + 4)
  }

  lemma LowFirst(s: seq<byte>)
    ensures |s| == 2 ==> FromBytes(s) == Le16(s, 0)
    ensures |s| == 4 ==> FromBytes(s) == Le32(s, 0)
  {
    if |s| >= 2 {
      assert FromBytes(s) == s[0] + 256 * FromBytes(s[1..]);
      assert FromBytes(s[1..]) == s[1] + 256 * FromBytes(s[1..][1..]);
      if |s| == 4 {
        var t := s[1..][1..];
        assert FromBytes(t) == t[0] + 256 * FromBytes(t[1..]);
        assert FromBytes(t[1..]) == t[1] + 256 * FromBytes(t[1..][1..]);
      }
    }
  }

  lemma FromHalves(s: seq<byte>)
    requires |s| == 8
    ensures FromBytes(s) == Le64(s, 0)
  {
    var u := s[1..][1..][1..][1..];
    LowFirst(s[..4]);
    LowFirst(u);
    assert FromBytes(s) == s[0] + 256 * FromBytes(s[1..]);
    assert FromBytes(s[1..]) == s[1] + 256 * FromBytes(s[1..][1..]);
    assert FromBytes(s[1..][1..]) == s[2] + 256 * FromBytes(s[1..][1..][1..]);
    assert FromBytes(s[1..][1..][1..]) == s[3] + 256 * FromBytes(u);
  }

  /** seq stands at bytes 6 to 9, udata at 10 to 13, the secrets at 14 to 21 and 22 to 29,
      the length at 4 and 5, each with the lowest byte first. */
  lemma FieldsStand(b: seq<byte>)
    requires |b| == HEADER_LEN
    ensures var h := Decode(b);
            && h.hdlen == b[0] && h.verMajor == b[1] && h.verMinor == b[2] && h.kind == b[3]
            && h.datalen == Le16(b, 4) && h.seqno == Le32(b, 6) && h.udata == Le32(b, 10)
            && h.secret1 == Le64(b, 14) && h.secret2 == Le64(b, 22) && h.reserved == Le16(b, 30)
  {
    var b1 := b[4..];
    var b2 := b1[2..];
    var b3 := b2[4..];
    var b4 := b3[4..];
    var b5 := b4[8..];
    LowFirst(b1[..2]);
    LowFirst(b2[..4]);
    LowFirst(b3[..4]);
    FromHalves(b4[..8]);
    FromHalves(b5[..8]);
    LowFirst(b5[8..]);
  }

  /** The check on the bytes: 32, 1, 0, and a length whose top bit is clear. */
  lemma GoodHeaders(b: seq<byte>)
    requires |b| == HEADER_LEN
    ensures HeaderOk(b) <==> b[0] == 32 && b[1] == 1 && b[2] == 0 && b[5] < 128
  {
  }
}
