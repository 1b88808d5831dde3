/** Bytes, big-endian 32-bit numbers (DataView.setUint32 / getUint32) and UTF-8 (TextEncoder). */
module Bytes {
  import opened Base

  type byte = b: int | 0 <= b < 256

  const WORD := 0x1_0000_0000

  /** What `setUint32(_, n, false)` writes: the low 32 bits of n, most significant byte first. */
  function Word(n: nat): (w: seq<byte>)
    ensures |w| == 4
  {
    [n / 256 / 256 / 256 % 256, n / 256 / 256 % 256, n / 256 % 256, n % 256]
  }

  function ReadWord(b: seq<byte>): (n: nat)
    requires |b| >= 4
    ensures n < WORD
  {
    ((b[0] as int * 256 + b[1] as int) * 256 + b[2] as int) * 256 + b[3] as int
  }

  /** Four bytes as a number, the first one weighing most. */
  function BigEndian(b: seq<byte>): int
    requires |b| == 4
  {
    b[0] as int * 0x100_0000 + b[1] as int * 0x1_0000 + b[2] as int * 0x100 + b[3] as int
  }

  lemma WordIsBigEndian(n: nat)
    ensures BigEndian(Word(n)) == n % WORD
  {
    WordReadsBack(n, []);
    assert Word(n) + [] == Word(n);
    hide Word;
  }

  /** Reading back gives the number modulo 2^32, whatever follows. */
  lemma WordReadsBack(n: nat, rest: seq<byte>)
    ensures ReadWord(Word(n) + rest) == n % WORD
  {
  }

  /** A length prefix reads back as the length while it fits 32 bits. */
  lemma LengthReadsBack(f: seq<byte>, more: seq<byte>)
    requires |f| < WORD
    ensures ReadWord(Word(|f|) + f + more) == |f|
  {
  }

  lemma Slices(w: seq<byte>, f: seq<byte>, more: seq<byte>)
    requires |w| == 4
    ensures (w + f + more)[4..4 + |f|] == f && (w + f + more)[4 + |f|..] == more
  {
  }

  lemma WordInverse(b: seq<byte>)
    requires |b| == 4
    ensures Word(ReadWord(b)) == b
  {
    var high, middle := b[0] as int * 256 + b[1] as int, (b[0] as int * 256 + b[1] as int) * 256 + b[2] as int;
    LowByte(middle, b[3]);
    LowByte(high, b[2]);
    LowByte(b[0] as int, b[1]);
    var n := ReadWord(b);
    assert n / 256 == middle && n / 256 / 256 == high && n / 256 / 256 / 256 == b[0] as int;
    hide ReadWord;
    assert Word(n) == [b[0], b[1], b[2], b[3]];
  }

  lemma LowByte(high: nat, low: byte)
    ensures (high * 256 + low as int) / 256 == high && (high * 256 + low as int) % 256 == low as int
  {
  }

  /** `out.set(bytes, offset)` */
  method Blit(out: array<byte>, bytes: seq<byte>, offset: nat)
    requires offset + |bytes| <= out.Length
    modifies out
    ensures out[..offset + |bytes|] == old(out[..offset]) + bytes
  {
    for i := 0 to |bytes|
      invariant out[..offset] == old(out[..offset])
      invariant out[offset..offset + i] == bytes[..i]
    {
      out[offset + i] := bytes[i];
    }
    assert out[..offset + |bytes|] == out[..offset] + out[offset..offset + |bytes|];
    assert bytes[..|bytes|] == bytes;
  }

  // ----- UTF-8 (RFC 3629) -----------------------------------------------------------------------

  function Utf8Char(c: char): (b: seq<byte>)
    ensures 1 <= |b| <= 4
  {
    var v := c as int;
    if v < 0x80 then [v]
    else if v < 0x800 then [0xC0 + v / 0x40, 0x80 + v % 0x40]
    else if v < 0x1_0000 then [0xE0 + v / 0x40 / 0x40, 0x80 + v / 0x40 % 0x40, 0x80 + v % 0x40]
    else [0xF0 + v / 0x40 / 0x40 / 0x40, 0x80 + v / 0x40 / 0x40 % 0x40, 0x80 + v / 0x40 % 0x40, 0x80 + v % 0x40]
  }

  function Utf8(s: string): seq<byte> {
    if s == [] then [] else Utf8Char(s[0]) + Utf8(s[1..])
  }

  predicate Continuation(b: byte) {
    0x80 <= b < 0xC0
  }

  predicate ScalarValue(v: int) {
    0 <= v < 0xD800 || 0xE000 <= v < 0x11_0000
  }

  /** How many bytes the sequence led by @p b takes; 0 when no sequence starts with it. */
  function SequenceLength(b: byte): (n: nat)
    ensures n <= 4
  {
    if b < 0x80 then 1 else if b < 0xC0 then 0 else if b < 0xE0 then 2 else if b < 0xF0 then 3 else if b < 0xF8 then 4 else 0
  }

  /** The character a complete sequence spells; overlong forms, surrogates and stray bytes spell none. */
  function ReadSequence(b: seq<byte>): Option<char>
    requires b != []
  {
    if |b| != SequenceLength(b[0]) || (exists k :: 1 <= k < |b| && !Continuation(b[k])) then None
    else
      var v := Payload(b);
      if ScalarValue(v) && Shortest(v, |b|) then Some(v as char) else None
  }

  /** The code point a lead byte and its continuations carry, six bits at a time. */
  function Payload(b: seq<byte>): int
    requires 1 <= |b| <= 4
  {
    var lead := b[0] as int - (if |b| == 1 then 0 else if |b| == 2 then 0xC0 else if |b| == 3 then 0xE0 else 0xF0);
    var v2 := if |b| > 1 then lead * 0x40 + b[1] as int - 0x80 else lead;
    var v3 := if |b| > 2 then v2 * 0x40 + b[2] as int - 0x80 else v2;
    if |b| > 3 then v3 * 0x40 + b[3] as int - 0x80 else v3
  }

  predicate Shortest(v: int, n: nat) {
    (n == 2 ==> v >= 0x80) && (n == 3 ==> v >= 0x800) && (n == 4 ==> v >= 0x1_0000)
  }

  lemma Utf8CharReadsBack(c: char)
    ensures ReadSequence(Utf8Char(c)) == Some(c) && |Utf8Char(c)| == SequenceLength(Utf8Char(c)[0])
  {
  }

  /** Table 3-6 of the Unicode Standard: how many bytes a character takes, their lead, and the six bits each carries on. */
  lemma Utf8CharIs(c: char)
    ensures var b, v := Utf8Char(c), c as int;
            && (v < 0x80 ==> b == [v])
            && (0x80 <= v < 0x800 ==> |b| == 2 && 0xC0 <= b[0] < 0xE0 && Carried(b, 1) + (b[0] as int - 0xC0) * 0x40 == v)
            && (0x800 <= v < 0x1_0000 ==> |b| == 3 && 0xE0 <= b[0] < 0xF0 && Carried(b, 1) + (b[0] as int - 0xE0) * 0x1000 == v)
            && (0x1_0000 <= v ==> |b| == 4 && 0xF0 <= b[0] < 0xF8 && Carried(b, 1) + (b[0] as int - 0xF0) * 0x4_0000 == v)
            && forall k :: 1 <= k < |b| ==> 0x80 <= b[k] < 0xC0
  {
    var b, v := Utf8Char(c), c as int;
    if v >= 0x1_0000 {
      var a := v / 0x40;
      var d := a / 0x40;
      assert v == a * 0x40 + v % 0x40 && a == d * 0x40 + a % 0x40 && d == (d / 0x40) * 0x40 + d % 0x40;
      assert Carried(b, 3) == v % 0x40 && Carried(b, 2) == a % 0x40 * 0x40 + v % 0x40;
    }
  }

  /** What the bytes from @p k on carry, six bits each. */
  function Carried(b: seq<byte>, k: nat): int
    requires k <= |b|
    decreases |b| - k
  {
    if k == |b| then 0
    else if |b| - k == 1 then b[k] as int - 0x80
    else if |b| - k == 2 then (b[k] as int - 0x80) * 0x40 + Carried(b, k + 1)
    else if |b| - k == 3 then (b[k] as int - 0x80) * 0x1000 + Carried(b, k + 1)
    else 0
  }

  /** Two texts with the same UTF-8 bytes are the same text. */
  lemma {:induction false} Utf8Injective(s: string, t: string)
    requires Utf8(s) == Utf8(t)
    ensures s == t
    decreases |s|
  {
    if s == [] || t == [] {
      assert s == [] && t == [];
    } else {
      var (a, b) := (Utf8Char(s[0]), Utf8Char(t[0]));
      Utf8CharReadsBack(s[0]);
      Utf8CharReadsBack(t[0]);
      var whole := Utf8(s);
      assert a == whole[..|a|] && b == whole[..|b|] && a[0] == whole[0] == b[0];
      assert Utf8(s[1..]) == whole[|a|..] && Utf8(t[1..]) == whole[|b|..];
      Utf8Injective(s[1..], t[1..]);
      assert s == [s[0]] + s[1..] && t == [t[0]] + t[1..];
    }
  }
}
