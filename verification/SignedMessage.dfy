/** MW-BIND message framing in bootstrap/v1/pairing.js: length-prefixed fields and the two digest inputs. */
module SignedMessage {
  import opened Base
  import opened Bytes

  type Field = seq<byte>

  /** Every field behind its length; setUint32 keeps only the low 32 bits of it. */
  function Encode(fields: seq<Field>): seq<byte> {
    if fields == [] then [] else Word(|fields[0]|) + fields[0] + Encode(fields[1..])
  }

  function Decode(b: seq<byte>): Option<seq<Field>> {
    if b == [] then Some([])
    else if |b| < 4 || |b| - 4 < ReadWord(b) then None
    else
      var n := ReadWord(b);
      var rest := Decode(b[4 + n..]);
      if rest.None? then None else Some([b[4..4 + n]] + rest.value)
  }

  predicate Short(fields: seq<Field>) {
    forall f :: f in fields ==> |f| < WORD
  }

  lemma {:induction false} DecodeStep(f: Field, more: seq<byte>)
    requires |f| < WORD && Decode(more).Some?
    ensures Decode(Word(|f|) + f + more) == Some([f] + Decode(more).value)
  {
    hide Word, ReadWord;
    LengthReadsBack(f, more);
    Slices(Word(|f|), f, more);
  }

  lemma {:induction false} DecodeUndoesEncode(fields: seq<Field>)
    requires Short(fields)
    ensures Decode(Encode(fields)) == Some(fields)
  {
    if fields != [] {
      assert fields[0] in fields;
      DecodeUndoesEncode(fields[1..]);
      hide Decode, Word;
      DecodeStep(fields[0], Encode(fields[1..]));
      assert fields == [fields[0]] + fields[1..];
    }
  }

  /** And nothing else is a message: whatever decodes is the encoding of what it decodes to. */
  lemma {:induction false} EncodeUndoesDecode(b: seq<byte>)
    requires Decode(b).Some?
    ensures Encode(Decode(b).value) == b && Short(Decode(b).value)
    decreases |b|
  {
    hide Decode, Encode, Word, ReadWord;
    if b == [] {
      NothingDecodes();
    } else {
      DecodedHeader(b);
      var n := ReadWord(b);
      var f, rest := b[4..4 + n], b[4 + n..];
      EncodeUndoesDecode(rest);
      HeaderInverse(b);
      EncodeCons(f, Decode(rest).value);
      assert b == b[..4] + f + rest;
    }
  }

  lemma NothingDecodes()
    ensures Decode([]) == Some([]) && Encode([]) == []
  {
  }

  lemma DecodedHeader(b: seq<byte>)
    requires b != [] && Decode(b).Some?
    ensures |b| >= 4 && 4 + ReadWord(b) <= |b| && Decode(b[4 + ReadWord(b)..]).Some?
    ensures Decode(b).value == [b[4..4 + ReadWord(b)]] + Decode(b[4 + ReadWord(b)..]).value
  {
    hide ReadWord;
  }

  lemma HeaderInverse(b: seq<byte>)
    requires |b| >= 4
    ensures Word(ReadWord(b)) == b[..4]
  {
    WordInverse(b[..4]);
  }

  lemma {:induction false} EncodeCons(f: Field, rest: seq<Field>)
    ensures Encode([f] + rest) == Word(|f|) + f + Encode(rest)
  {
  }

  lemma {:induction false} EncodeInjective(fields: seq<Field>, fields': seq<Field>)
    requires Short(fields) && Short(fields') && Encode(fields) == Encode(fields')
    ensures fields == fields'
  {
    DecodeUndoesEncode(fields);
    DecodeUndoesEncode(fields');
  }

  /** The bound is exact: a list of fields decodes to itself if and only if each is shorter than 2^32 bytes. */
  lemma DecodesIffShort(fields: seq<Field>)
    ensures Decode(Encode(fields)) == Some(fields) <==> Short(fields)
  {
    hide Encode, Decode, Short;
    if Short(fields) {
      DecodeUndoesEncode(fields);
    }
    if Decode(Encode(fields)) == Some(fields) {
      EncodeUndoesDecode(Encode(fields));
    }
  }

  function Zeros(n: nat): (z: seq<byte>)
    ensures |z| == n
  {
    seq(n, _ => 0)
  }

  function Empties(n: nat): (e: seq<Field>)
    ensures |e| == n
  {
    seq(n, _ => [])
  }

  lemma {:induction false} EmptyFieldsAreZeros(n: nat)
    ensures Encode(Empties(n)) == Zeros(4 * n)
  {
    if n > 0 {
      assert Empties(n)[0] == [] && Empties(n)[1..] == Empties(n - 1);
      EmptyFieldsAreZeros(n - 1);
      assert Word(0) + [] == Zeros(4);
      assert Zeros(4) + Zeros(4 * (n - 1)) == Zeros(4 * n);
    }
  }

  /**
   The length bound is needed: a field of 2^32 zero bytes wraps to a zero prefix, and the message it makes
   is also that of 2^30 + 1 empty fields.
   */
  lemma OneFieldTooLongIsAmbiguous()
    ensures Encode([Zeros(WORD)]) == Encode(Empties(WORD / 4 + 1)) && [Zeros(WORD)] != Empties(WORD / 4 + 1)
  {
    var long := [Zeros(WORD)];
    assert long[1..] == [];
    assert Encode(long) == Word(WORD) + Zeros(WORD);
    assert Word(WORD) == Zeros(4);
    EmptyFieldsAreZeros(WORD / 4 + 1);
    assert Zeros(4) + Zeros(WORD) == Zeros(WORD + 4);
    assert |long| == 1 && |Empties(WORD / 4 + 1)| == WORD / 4 + 1;
  }

  // ----- The buffer-filling loop ----------------------------------------------------------------

  lemma {:induction false} EncodeAppend(fields: seq<Field>, f: Field)
    ensures Encode(fields + [f]) == Encode(fields) + (Word(|f|) + f)
  {
    if fields == [] {
      assert [f][1..] == [] && Encode([f]) == Word(|f|) + f;
    } else {
      assert (fields + [f])[1..] == fields[1..] + [f];
      EncodeAppend(fields[1..], f);
    }
  }

  lemma {:induction false} EncodedLength(fields: seq<Field>, k: nat)
    requires k <= |fields|
    ensures |Encode(fields[..k])| <= |Encode(fields)|
    ensures k < |fields| ==> |Encode(fields[..k])| + 4 + |fields[k]| <= |Encode(fields)|
    decreases |fields| - k
  {
    if k < |fields| {
      assert fields[..k + 1] == fields[..k] + [fields[k]];
      EncodeAppend(fields[..k], fields[k]);
      EncodedLength(fields, k + 1);
    } else {
      assert fields[..k] == fields;
    }
  }

  /** `total`: four bytes and its own for every field. */
  method TotalLength(fields: seq<Field>) returns (total: nat)
    ensures total == |Encode(fields)|
  {
    total := 0;
    for k := 0 to |fields|
      invariant total == |Encode(fields[..k])|
    {
      assert fields[..k + 1] == fields[..k] + [fields[k]];
      EncodeAppend(fields[..k], fields[k]);
      total := total + 4 + |fields[k]|;
    }
    assert fields[..|fields|] == fields;
  }

  method BuildSignedMessage(fields: seq<Field>) returns (message: seq<byte>)
    ensures message == Encode(fields)
  {
    var total := TotalLength(fields);
    var out := new byte[total](_ => 0);
    var offset := 0;
    for k := 0 to |fields|
      invariant offset == |Encode(fields[..k])| <= out.Length == |Encode(fields)|
      invariant out[..offset] == Encode(fields[..k])
    {
      EncodedLength(fields, k);
      Blit(out, Word(|fields[k]|), offset);
      offset := offset + 4;
      Blit(out, fields[k], offset);
      offset := offset + |fields[k]|;
      assert fields[..k + 1] == fields[..k] + [fields[k]];
      EncodeAppend(fields[..k], fields[k]);
      assert out[..offset] == Encode(fields[..k]) + Word(|fields[k]|) + fields[k];
    }
    assert fields[..|fields|] == fields && out[..] == out[..offset];
    message := out[..];
  }

  // ----- The two messages -----------------------------------------------------------------------

  const PROTOCOL := "MW-BIND-v1"

  function HostRole(): string {
    PROTOCOL + "|host"
  }

  function BrowserRole(): string {
    PROTOCOL + "|browser"
  }

  function HostDigestInput(hostId: string, browserKeyId: string, nonceB: seq<byte>, fingerprintHost: string): seq<byte> {
    Encode([Utf8(HostRole()), Utf8(hostId), Utf8(browserKeyId), nonceB, Utf8(fingerprintHost)])
  }

  function BrowserDigestInput(hostId: string, nonceH: seq<byte>, fingerprintHost: string, fingerprintBrowser: string): seq<byte> {
    Encode([Utf8(BrowserRole()), Utf8(hostId), nonceH, Utf8(fingerprintHost), Utf8(fingerprintBrowser)])
  }

  lemma FiveDecode(a: Field, b: Field, c: Field, d: Field, e: Field)
    requires |a| < WORD && |b| < WORD && |c| < WORD && |d| < WORD && |e| < WORD
    ensures Decode(Encode([a, b, c, d, e])) == Some([a, b, c, d, e])
  {
    hide Encode, Decode;
    DecodeUndoesEncode([a, b, c, d, e]);
  }

  lemma RolesAre()
    ensures HostRole() == "MW-BIND-v1|host" && BrowserRole() == "MW-BIND-v1|browser"
  {
  }

  /** What a verifier that splits the bytes again finds: label, host, browser key, nonce, fingerprint, in this order. */
  lemma HostMessageDecodes(h: string, k: string, n: seq<byte>, f: string)
    requires |Utf8(h)| < WORD && |Utf8(k)| < WORD && |n| < WORD && |Utf8(f)| < WORD
    ensures Decode(HostDigestInput(h, k, n, f)) == Some([Utf8("MW-BIND-v1|host"), Utf8(h), Utf8(k), n, Utf8(f)])
  {
    hide Utf8, Encode, Decode, HostRole, BrowserRole;
    RoleLengths();
    RolesAre();
    FiveDecode(Utf8(HostRole()), Utf8(h), Utf8(k), n, Utf8(f));
  }

  lemma BrowserMessageDecodes(h: string, n: seq<byte>, f: string, g: string)
    requires |Utf8(h)| < WORD && |n| < WORD && |Utf8(f)| < WORD && |Utf8(g)| < WORD
    ensures Decode(BrowserDigestInput(h, n, f, g)) == Some([Utf8("MW-BIND-v1|browser"), Utf8(h), n, Utf8(f), Utf8(g)])
  {
    hide Utf8, Encode, Decode, HostRole, BrowserRole;
    RoleLengths();
    RolesAre();
    FiveDecode(Utf8(BrowserRole()), Utf8(h), n, Utf8(f), Utf8(g));
  }

  lemma {:induction false} AsciiLength(s: string)
    requires forall c :: c in s ==> c as int < 0x80
    ensures |Utf8(s)| == |s|
  {
    if s != [] {
      assert s[0] in s && forall c :: c in s[1..] ==> c in s;
      AsciiLength(s[1..]);
    }
  }

  lemma RoleLengths()
    ensures |Utf8(HostRole())| == 15 && |Utf8(BrowserRole())| == 18
  {
    AsciiLength(HostRole());
    AsciiLength(BrowserRole());
  }

  /** What a host signs determines every part of it. */
  lemma {:induction false} HostMessageBinds(h: string, k: string, n: seq<byte>, f: string, h': string, k': string, n': seq<byte>, f': string)
    requires HostDigestInput(h, k, n, f) == HostDigestInput(h', k', n', f')
    requires |Utf8(h)| < WORD && |Utf8(k)| < WORD && |n| < WORD && |Utf8(f)| < WORD
    requires |Utf8(h')| < WORD && |Utf8(k')| < WORD && |n'| < WORD && |Utf8(f')| < WORD
    ensures h == h' && k == k' && n == n' && f == f'
  {
    hide Encode, Utf8, HostRole;
    RoleLengths();
    var role := Utf8(HostRole());
    FiveFields(role, Utf8(h), Utf8(k), n, Utf8(f), Utf8(h'), Utf8(k'), n', Utf8(f'));
    Utf8Injective(h, h');
    Utf8Injective(k, k');
    Utf8Injective(f, f');
  }

  /** Two five-field messages under one label agree field by field. */
  lemma {:induction false} FiveFields(l: Field, a: Field, b: Field, c: Field, d: Field, a': Field, b': Field, c': Field, d': Field)
    requires |l| < WORD && |a| < WORD && |b| < WORD && |c| < WORD && |d| < WORD
    requires |a'| < WORD && |b'| < WORD && |c'| < WORD && |d'| < WORD
    requires Encode([l, a, b, c, d]) == Encode([l, a', b', c', d'])
    ensures a == a' && b == b' && c == c' && d == d'
  {
    var (x, y) := ([l, a, b, c, d], [l, a', b', c', d']);
    hide Encode;
    EncodeInjective(x, y);
    assert x[1] == y[1] && x[2] == y[2] && x[3] == y[3] && x[4] == y[4];
  }

  /** So does what a browser signs. */
  lemma {:induction false} BrowserMessageBinds(h: string, n: seq<byte>, f: string, g: string, h': string, n': seq<byte>, f': string, g': string)
    requires BrowserDigestInput(h, n, f, g) == BrowserDigestInput(h', n', f', g')
    requires |Utf8(h)| < WORD && |n| < WORD && |Utf8(f)| < WORD && |Utf8(g)| < WORD
    requires |Utf8(h')| < WORD && |n'| < WORD && |Utf8(f')| < WORD && |Utf8(g')| < WORD
    ensures h == h' && n == n' && f == f' && g == g'
  {
    hide Encode, Utf8, BrowserRole;
    RoleLengths();
    var role := Utf8(BrowserRole());
    FiveFields(role, Utf8(h), n, Utf8(f), Utf8(g), Utf8(h'), n', Utf8(f'), Utf8(g'));
    Utf8Injective(h, h');
    Utf8Injective(f, f');
    Utf8Injective(g, g');
  }

  /** A host's signature never stands for a browser's: the role labels differ already in their length. */
  lemma {:induction false} RolesNeverCollide(h: string, k: string, n: seq<byte>, f: string, h': string, n': seq<byte>, f': string, g': string)
    ensures HostDigestInput(h, k, n, f) != BrowserDigestInput(h', n', f', g')
  {
    RoleLengths();
    hide Utf8, HostRole, BrowserRole;
    var a := [Utf8(HostRole()), Utf8(h), Utf8(k), n, Utf8(f)];
    var b := [Utf8(BrowserRole()), Utf8(h'), n', Utf8(f'), Utf8(g')];
    WordReadsBack(15, a[0] + Encode(a[1..]));
    WordReadsBack(18, b[0] + Encode(b[1..]));
    assert Encode(a) == Word(15) + (a[0] + Encode(a[1..]));
    assert Encode(b) == Word(18) + (b[0] + Encode(b[1..]));
  }
}
