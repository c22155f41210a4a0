/** Bytes and the big-endian 32-bit integers of the psx/1 wire format. */
module Wire {

  newtype Byte = b: int | 0 <= b < 256

  const U32_LIMIT: int := 0x1_0000_0000

  type U32 = n: int | 0 <= n < 0x1_0000_0000

  /** The four bytes that `writeU32BE` appends. */
  function EncodeU32(value: U32): (s: seq<Byte>)
    ensures |s| == 4
  {
    [(value / 0x100_0000) as Byte, (value / 0x1_0000 % 0x100) as Byte, (value / 0x100 % 0x100) as Byte,
     (value % 0x100) as Byte]
  }

  /** `readU32BE`: four bytes as an unsigned number. */
  function DecodeU32(s: seq<Byte>): (value: U32)
    requires |s| == 4
  {
    s[0] as int * 0x100_0000 + s[1] as int * 0x1_0000 + s[2] as int * 0x100 + s[3] as int
  }

  lemma U32RoundTrip(value: U32)
    ensures DecodeU32(EncodeU32(value)) == value
  {
    var hi, lo := value / 0x1_0000, value % 0x1_0000;
    assert value / 0x100_0000 == hi / 0x100;
    assert value / 0x100 % 0x100 == lo / 0x100;
    assert value % 0x100 == lo % 0x100;
    assert hi % 0x100 + hi / 0x100 * 0x100 == hi;
    assert lo % 0x100 + lo / 0x100 * 0x100 == lo;
  }

  lemma U32Canonical(s: seq<Byte>)
    requires |s| == 4
    ensures EncodeU32(DecodeU32(s)) == s
  {
    var v := DecodeU32(s);
    var hi, lo := s[0] as int * 0x100 + s[1] as int, s[2] as int * 0x100 + s[3] as int;
    assert v == hi * 0x1_0000 + lo;
    assert v / 0x1_0000 == hi;
    assert v / 0x100_0000 == s[0] as int;
    assert v / 0x100 == hi * 0x100 + s[2] as int;
    assert v / 0x100 % 0x100 == s[2] as int;
    assert hi % 0x100 == s[1] as int;
    assert v % 0x100 == s[3] as int;
  }
}
