/** Base64 as in section 4 of RFC 4648: the standard alphabet, padded to full
    groups of four characters. */
module Base64 {
  import opened Prelude

  newtype byte = x: int | 0 <= x < 256

  function Symbol(n: int): char
    requires 0 <= n < 64
  {
    if n < 26 then ('A' as int + n) as char
    else if n < 52 then ('a' as int + (n - 26)) as char
    else if n < 62 then ('0' as int + (n - 52)) as char
    else if n == 62 then '+' else '/'
  }

  function Value(c: char): Option<int> {
    if 'A' <= c <= 'Z' then Some(c as int - 'A' as int)
    else if 'a' <= c <= 'z' then Some(c as int - 'a' as int + 26)
    else if '0' <= c <= '9' then Some(c as int - '0' as int + 52)
    else if c == '+' then Some(62)
    else if c == '/' then Some(63)
    else None
  }

  function Group3(a: byte, b: byte, c: byte): string {
    var x, y, z := a as int, b as int, c as int;
    [Symbol(x / 4), Symbol(x % 4 * 16 + y / 16), Symbol(y % 16 * 4 + z / 64), Symbol(z % 64)]
  }

  function Group2(a: byte, b: byte): string {
    var x, y := a as int, b as int;
    [Symbol(x / 4), Symbol(x % 4 * 16 + y / 16), Symbol(y % 16 * 4), '=']
  }

  function Group1(a: byte): string {
    [Symbol(a as int / 4), Symbol(a as int % 4 * 16), '=', '=']
  }

  function Encode(b: seq<byte>): string {
    if b == [] then ""
    else if |b| == 1 then Group1(b[0])
    else if |b| == 2 then Group2(b[0], b[1])
    else Group3(b[0], b[1], b[2]) + Encode(b[3..])
  }

  /** One group of four characters; padding is accepted in the last group only, and the
      bits it leaves unused are ignored. */
  function DecodeGroup(s: string, last: bool): Option<seq<byte>>
    requires |s| == 4
  {
    var a, b, c, d := Value(s[0]), Value(s[1]), Value(s[2]), Value(s[3]);
    if a.None? || b.None? then None
    else if c.Some? && d.Some? then
      Some([Byte(a.value * 4 + b.value / 16), Byte(b.value % 16 * 16 + c.value / 4), Byte(c.value % 4 * 64 + d.value)])
    else if last && c.Some? && s[3] == '=' then
      Some([Byte(a.value * 4 + b.value / 16), Byte(b.value % 16 * 16 + c.value / 4)])
    else if last && s[2] == '=' && s[3] == '=' then
      Some([Byte(a.value * 4 + b.value / 16)])
    else None
  }

  function Byte(n: int): byte { if 0 <= n < 256 then n as byte else 0 }

  function Decode(s: string): Option<seq<byte>> {
    if s == "" then Some([])
    else if |s| < 4 then None
    else
      var first := DecodeGroup(s[..4], |s| == 4);
      if first.None? then None else
      var rest := Decode(s[4..]);
      if rest.None? then None else Some(first.value + rest.value)
  }

  lemma SymbolValue(n: int)
    requires 0 <= n < 64
    ensures Value(Symbol(n)) == Some(n) && Symbol(n) != '='
  {
  }

  /** What is put together from the bits of two symbols. */
  lemma HighBits(x: int, y: int)
    requires 0 <= x < 256 && 0 <= y < 256
    ensures x / 4 * 4 + (x % 4 * 16 + y / 16) / 16 == x && (x % 4 * 16 + y / 16) % 16 == y / 16
    ensures 0 <= x % 4 * 16 + y / 16 < 64
  {
  }

  lemma LowBits(y: int, z: int)
    requires 0 <= y < 256 && 0 <= z < 256
    ensures y / 16 * 16 + (y % 16 * 4 + z / 64) / 4 == y && (y % 16 * 4 + z / 64) % 4 * 64 + z % 64 == z
    ensures 0 <= y % 16 * 4 + z / 64 < 64
  {
  }

  lemma Group3Decodes(a: byte, b: byte, c: byte, last: bool)
    ensures DecodeGroup(Group3(a, b, c), last) == Some([a, b, c])
  {
    var x, y, z := a as int, b as int, c as int;
    HighBits(x, y);
    LowBits(y, z);
    SymbolValue(x / 4);
    SymbolValue(x % 4 * 16 + y / 16);
    SymbolValue(y % 16 * 4 + z / 64);
    SymbolValue(z % 64);
  }

  lemma Group2Decodes(a: byte, b: byte)
    ensures DecodeGroup(Group2(a, b), true) == Some([a, b])
  {
    var x, y := a as int, b as int;
    HighBits(x, y);
    LowBits(y, 0);
    SymbolValue(x / 4);
    SymbolValue(x % 4 * 16 + y / 16);
    SymbolValue(y % 16 * 4);
  }

  lemma Group1Decodes(a: byte)
    ensures DecodeGroup(Group1(a), true) == Some([a])
  {
    SymbolValue(a as int / 4);
    SymbolValue(a as int % 4 * 16);
  }

  lemma LastGroup(g: string, x: seq<byte>)
    requires |g| == 4 && DecodeGroup(g, true) == Some(x)
    ensures Decode(g) == Some(x)
  {
    assert g + "" == g && x + [] == x;
  }

  lemma ShortRoundTrip(b: seq<byte>)
    requires |b| == 1 || |b| == 2
    ensures Decode(Encode(b)) == Some(b)
  {
    if |b| == 1 {
      Group1Decodes(b[0]);
      LastGroup(Group1(b[0]), [b[0]]);
      assert b == [b[0]];
    } else {
      Group2Decodes(b[0], b[1]);
      LastGroup(Group2(b[0], b[1]), [b[0], b[1]]);
      assert b == [b[0], b[1]];
    }
  }

  /** Decoding undoes encoding, for every byte sequence. */
  lemma {:induction false} RoundTrip(b: seq<byte>)
    ensures Decode(Encode(b)) == Some(b)
    decreases |b|
  {
    if 1 <= |b| <= 2 {
      ShortRoundTrip(b);
    } else if |b| > 2 {
      var g := Group3(b[0], b[1], b[2]);
      var rest := Encode(b[3..]);
      Group3Decodes(b[0], b[1], b[2], rest == "");
      RoundTrip(b[3..]);
      assert b == [b[0], b[1], b[2]] + b[3..];
    }
  }

  lemma {:induction false} EncodedLength(b: seq<byte>)
    ensures |Encode(b)| == (|b| + 2) / 3 * 4
    decreases |b|
  {
    if |b| > 2 {
      EncodedLength(b[3..]);
      OneGroup(|b|);
    }
  }

  lemma OneGroup(n: nat)
    requires n > 2
    ensures (n + 2) / 3 == 1 + (n - 3 + 2) / 3
  {
  }

  /** Padding is accepted at the end only. */
  lemma PaddingEndsText(g: string, rest: string)
    requires |g| == 4 && g[3] == '=' && rest != ""
    ensures Decode(g + rest).None?
  {
    assert (g + rest)[..4] == g;
  }

  /** The alphabet, in order. */
  lemma Alphabet()
    ensures Group3(0x00, 0x10, 0x83) == "ABCD" && Group3(0x10, 0x51, 0x87) == "EFGH"
    ensures Group3(0x20, 0x92, 0x8B) == "IJKL" && Group3(0x30, 0xD3, 0x8F) == "MNOP"
    ensures Group3(0x41, 0x14, 0x93) == "QRST" && Group3(0x51, 0x55, 0x97) == "UVWX"
    ensures Group3(0x61, 0x96, 0x9B) == "YZab" && Group3(0x71, 0xD7, 0x9F) == "cdef"
    ensures Group3(0x82, 0x18, 0xA3) == "ghij" && Group3(0x92, 0x59, 0xA7) == "klmn"
    ensures Group3(0xA2, 0x9A, 0xAB) == "opqr" && Group3(0xB2, 0xDB, 0xAF) == "stuv"
    ensures Group3(0xC3, 0x1C, 0xB3) == "wxyz" && Group3(0xD3, 0x5D, 0xB7) == "0123"
    ensures Group3(0xE3, 0x9E, 0xBB) == "4567" && Group3(0xF3, 0xDF, 0xBF) == "89+/"
  {
  }

  /** The test vectors of section 10 of RFC 4648. */
  lemma TestVectors()
    ensures Encode([]) == "" && Encode([102]) == "Zg==" && Encode([102, 111]) == "Zm8="
    ensures Encode([102, 111, 111]) == "Zm9v" && Encode([102, 111, 111, 98]) == "Zm9vYg=="
    ensures Encode([102, 111, 111, 98, 97]) == "Zm9vYmE=" && Encode([102, 111, 111, 98, 97, 114]) == "Zm9vYmFy"
  {
    assert [102 as byte, 111, 111, 98][3..] == [98];
    assert [102 as byte, 111, 111, 98, 97][3..] == [98, 97];
    assert [102 as byte, 111, 111, 98, 97, 114][3..] == [98, 97, 114];
    assert [102 as byte, 111, 111][3..] == [];
  }
}
