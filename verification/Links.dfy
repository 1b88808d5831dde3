/**
 Addresses of a machine: the fragment reader of bootstrap/v1/tunnel.js, the handover address printed by
 bootstrap/v1/boot.js, and the links minted by backend/src/main.cpp. Percent-encoding is that of RFC 3986,
 section 2.1, over UTF-8.
 */
module Links {
  import opened Base
  import opened Bytes

  // ----- Percent-encoding -----------------------------------------------------------------------

  /** encodeURIComponent in the browser, QUrl::toPercentEncoding in the backend. */
  datatype Printer = UriComponent | QtPercent

  predicate Alphanumeric(c: char) {
    'A' <= c <= 'Z' || 'a' <= c <= 'z' || '0' <= c <= '9'
  }

  predicate Unescaped(p: Printer, c: char) {
    Alphanumeric(c) || c in "-_.~" || (p.UriComponent? && c in "!*'()")
  }

  function Hex(n: nat): (c: char)
    requires n < 16
    ensures Alphanumeric(c)
  {
    if n < 10 then ('0' as int + n) as char else ('A' as int + n - 10) as char
  }

  function HexValue(c: char): (v: Option<nat>)
    ensures v.Some? ==> v.value < 16
  {
    if '0' <= c <= '9' then Some(c as int - '0' as int)
    else if 'A' <= c <= 'F' then Some(c as int - 'A' as int + 10)
    else if 'a' <= c <= 'f' then Some(c as int - 'a' as int + 10)
    else None
  }

  function EscapeBytes(b: seq<byte>): (s: string)
    ensures |s| == 3 * |b|
    ensures forall c :: c in s ==> c == '%' || Alphanumeric(c)
  {
    if b == [] then "" else ['%', Hex(b[0] / 16), Hex(b[0] % 16)] + EscapeBytes(b[1..])
  }

  function EscapeChar(p: Printer, c: char): string {
    if Unescaped(p, c) then [c] else EscapeBytes(Utf8Char(c))
  }

  function Escape(p: Printer, s: string): string {
    if s == [] then "" else EscapeChar(p, s[0]) + Escape(p, s[1..])
  }

  /** The bytes of @p n consecutive escapes at the front of @p s. */
  function ReadEscapes(s: string, n: nat): (b: Option<seq<byte>>)
    ensures b.Some? ==> |b.value| == n && |s| >= 3 * n
  {
    if n == 0 then Some([])
    else if |s| < 3 || s[0] != '%' || HexValue(s[1]).None? || HexValue(s[2]).None? then None
    else
      var more := ReadEscapes(s[3..], n - 1);
      if more.None? then None else Some([HexValue(s[1]).value * 16 + HexValue(s[2]).value] + more.value)
  }

  /** decodeURIComponent; None is its URIError. */
  function Unescape(s: string): Option<string>
    decreases |s|
  {
    if s == [] then Some("")
    else if s[0] != '%' then Prepend(s[0], Unescape(s[1..]))
    else if ReadEscapes(s, 1).None? then None
    else
      var n := SequenceLength(ReadEscapes(s, 1).value[0]);
      if n == 0 || ReadEscapes(s, n).None? then None
      else
        var c := ReadSequence(ReadEscapes(s, n).value);
        if c.None? then None else Prepend(c.value, Unescape(s[3 * n..]))
  }

  function Prepend(c: char, s: Option<string>): Option<string> {
    if s.None? then None else Some([c] + s.value)
  }

  lemma {:induction false} EscapesReadBack(b: seq<byte>, n: nat, rest: string)
    requires n <= |b|
    ensures ReadEscapes(EscapeBytes(b) + rest, n) == Some(b[..n])
    decreases n
  {
    if n > 0 {
      var s := EscapeBytes(b) + rest;
      assert s[3..] == EscapeBytes(b[1..]) + rest;
      EscapesReadBack(b[1..], n - 1, rest);
      assert [b[0]] + b[1..][..n - 1] == b[..n];
      assert HexValue(s[1]) == Some(b[0] / 16) && HexValue(s[2]) == Some(b[0] % 16);
    }
  }

  lemma {:induction false} EscapedCharReadsBack(p: Printer, c: char, rest: string)
    ensures Unescape(EscapeChar(p, c) + rest) == Prepend(c, Unescape(rest))
  {
    var s := EscapeChar(p, c) + rest;
    if Unescaped(p, c) {
      assert s[0] == c && s[1..] == rest;
    } else {
      var b := Utf8Char(c);
      EscapedSequence(b, rest);
      Utf8CharReadsBack(c);
      hide ReadEscapes, ReadSequence, Utf8Char, EscapeBytes, SequenceLength;
      assert s[0] == '%' && s[3 * |b|..] == rest;
    }
  }

  lemma EscapedSequence(b: seq<byte>, rest: string)
    requires b != []
    ensures var s := EscapeBytes(b) + rest;
            s[0] == '%' && ReadEscapes(s, 1) == Some([b[0]]) && ReadEscapes(s, |b|) == Some(b)
  {
    EscapesReadBack(b, 1, rest);
    EscapesReadBack(b, |b|, rest);
    assert b[..1] == [b[0]] && b[..|b|] == b;
  }

  /** What goes out as it is: letters, digits and -_.~ with either printer, and !*'() with the browser's. */
  lemma {:induction false} PlainTextIsKept(p: Printer, s: string)
    requires forall c :: c in s ==> '0' <= c <= '9' || 'a' <= c <= 'z' || 'A' <= c <= 'Z' || c in "-_.~"
                                    || (p == UriComponent && c in "!*'()")
    ensures Escape(p, s) == s
  {
    if s != "" {
      assert s[0] in s && forall c :: c in s[1..] ==> c in s;
      PlainTextIsKept(p, s[1..]);
    }
  }

  /** Byte @p k of @p b stands in @p s as a percent sign and two upper-case hex digits. */
  predicate Spells(s: string, b: seq<byte>, k: nat)
    requires k < |b| && 3 * |b| <= |s|
  {
    s[3 * k] == '%' && s[3 * k + 1] == "0123456789ABCDEF"[b[k] / 16] && s[3 * k + 2] == "0123456789ABCDEF"[b[k] % 16]
  }

  /** Everything else goes out as its UTF-8 bytes, each spelled in hex. */
  lemma OtherCharsAreEscaped(p: Printer, c: char, rest: string)
    requires !('0' <= c <= '9' || 'a' <= c <= 'z' || 'A' <= c <= 'Z' || c in "-_.~" || (p == UriComponent && c in "!*'()"))
    ensures var out, b := Escape(p, [c] + rest), Utf8Char(c);
            && |out| == 3 * |b| + |Escape(p, rest)| && out[3 * |b|..] == Escape(p, rest)
            && forall k :: 0 <= k < |b| ==> Spells(out, b, k)
  {
    var b := Utf8Char(c);
    EscapedBytes(b);
    hide Utf8Char, EscapeBytes;
    assert Escape(p, [c] + rest) == EscapeBytes(b) + Escape(p, rest) by {
      assert ([c] + rest)[1..] == rest;
    }
    hide Escape;
    forall k | 0 <= k < |b| ensures Spells(EscapeBytes(b) + Escape(p, rest), b, k) {
      assert Spells(EscapeBytes(b), b, k);
    }
  }

  lemma {:induction false} EscapedBytes(b: seq<byte>)
    ensures forall k :: 0 <= k < |b| ==> Spells(EscapeBytes(b), b, k)
  {
    if b != [] {
      EscapedBytes(b[1..]);
      HexIs(b[0] / 16);
      HexIs(b[0] % 16);
      hide Hex;
      var out, rest := EscapeBytes(b), EscapeBytes(b[1..]);
      assert out[3..] == rest && Spells(out, b, 0);
      hide EscapeBytes;
      forall k | 1 <= k < |b| ensures Spells(out, b, k) {
        assert Spells(rest, b[1..], k - 1);
        var j := 3 * (k - 1);
        assert out[j + 3] == out[3..][j] && out[j + 4] == out[3..][j + 1] && out[j + 5] == out[3..][j + 2];
      }
    }
  }

  lemma HexIs(n: nat)
    requires n < 16
    ensures Hex(n) == "0123456789ABCDEF"[n]
  {
  }

  /** Either printer's output decodes to the text it was given. */
  lemma {:induction false} UnescapeUndoesEscape(p: Printer, s: string)
    ensures Unescape(Escape(p, s)) == Some(s)
  {
    if s != [] {
      EscapedCharReadsBack(p, s[0], Escape(p, s[1..]));
      UnescapeUndoesEscape(p, s[1..]);
      assert [s[0]] + s[1..] == s;
    }
  }

  lemma {:induction false} UnescapePlain(s: string)
    requires '%' !in s
    ensures Unescape(s) == Some(s)
  {
    if s != [] {
      assert s[0] in s && '%' !in s[1..];
      UnescapePlain(s[1..]);
      assert [s[0]] + s[1..] == s;
    }
  }

  /** A printed value holds no separator, so it stays one part of the fragment. */
  lemma {:induction false} EscapedIsOnePart(p: Printer, s: string)
    ensures '&' !in Escape(p, s) && '#' !in Escape(p, s) && (s != "" ==> Escape(p, s) != "")
  {
    if s != [] {
      EscapedIsOnePart(p, s[1..]);
      assert EscapeChar(p, s[0]) != "";
    }
  }

  // ----- The fragment ---------------------------------------------------------------------------

  /** `split('&')`, empty pieces dropped. */
  function Parts(s: string): seq<string> {
    SplitFrom(s, "")
  }

  /** @p piece: the current piece, read so far. */
  function SplitFrom(s: string, piece: string): seq<string> {
    if s == "" then Kept(piece)
    else if s[0] == '&' then Kept(piece) + SplitFrom(s[1..], "")
    else SplitFrom(s[1..], piece + [s[0]])
  }

  function Kept(piece: string): seq<string> {
    if piece == "" then [] else [piece]
  }

  /** `location.hash.replace(/^#/, '')` split into parts. */
  function HashParts(hash: string): seq<string> {
    Parts(if "#" <= hash then hash[1..] else hash)
  }

  lemma {:induction false} SplitOne(a: string, piece: string)
    requires '&' !in a
    ensures SplitFrom(a, piece) == Kept(piece + a)
    decreases |a|
  {
    if a != "" {
      assert a[0] in a && '&' !in a[1..];
      SplitOne(a[1..], piece + [a[0]]);
      assert piece + [a[0]] + a[1..] == piece + a;
    } else {
      assert piece + a == piece;
    }
  }

  lemma {:induction false} SplitFirst(a: string, piece: string, b: string)
    requires '&' !in a
    ensures SplitFrom(a + "&" + b, piece) == Kept(piece + a) + Parts(b)
    decreases |a|
  {
    var s := a + "&" + b;
    if a != "" {
      assert a[0] in a && '&' !in a[1..];
      assert s[1..] == a[1..] + "&" + b;
      SplitFirst(a[1..], piece + [a[0]], b);
      assert piece + [a[0]] + a[1..] == piece + a;
    } else {
      assert s[1..] == b && piece + a == piece;
    }
  }

  /** Joining non-empty parts with '&' and splitting again gives the parts back. */
  function Join(parts: seq<string>): string {
    if parts == [] then "" else if |parts| == 1 then parts[0] else parts[0] + "&" + Join(parts[1..])
  }

  lemma {:induction false} PartsOfJoin(parts: seq<string>)
    requires forall p :: p in parts ==> p != "" && '&' !in p
    ensures HashParts("#" + Join(parts)) == parts
  {
    assert ("#" + Join(parts))[1..] == Join(parts);
    PartsOfJoined(parts);
  }

  lemma {:induction false} PartsOfJoined(parts: seq<string>)
    requires forall p :: p in parts ==> p != "" && '&' !in p
    ensures Parts(Join(parts)) == parts
  {
    if parts != [] {
      assert parts[0] in parts && forall p :: p in parts[1..] ==> p in parts;
      assert "" + parts[0] == parts[0] && parts == [parts[0]] + parts[1..];
      if |parts| == 1 {
        SplitOne(parts[0], "");
      } else {
        SplitFirst(parts[0], "", Join(parts[1..]));
        PartsOfJoined(parts[1..]);
      }
    }
  }

  // ----- The readers ----------------------------------------------------------------------------

  /** What a reader gives: nothing, a value, or the URIError of a malformed escape. */
  datatype Read<+T> = Absent | Found(value: T) | Throws

  predicate IdShape(s: string) {
    |s| == 26 && forall c :: c in s ==> '0' <= c <= '9' || 'a' <= c <= 'z'
  }

  predicate Segment(c: char) {
    Alphanumeric(c) || c == '-' || c == '_'
  }

  predicate LandingShape(s: string) {
    2 <= |s| <= 33 && s[0] == '/' && forall k :: 1 <= k < |s| ==> Segment(s[k])
  }

  predicate TokenShape(s: string) {
    16 <= |s| <= 128 && forall c :: c in s ==> Segment(c)
  }

  datatype Wanted = Key | Landing | Token

  function Prefix(w: Wanted): string {
    match w case Key => "k=" case Landing => "p=" case Token => "t="
  }

  predicate Accepts(w: Wanted, value: string) {
    match w case Key => value != "" case Landing => LandingShape(value) case Token => TokenShape(value)
  }

  /** The first part of the wanted name whose decoded value is acceptable. */
  function First(w: Wanted, parts: seq<string>): Read<string> {
    if parts == [] then Absent
    else if !(Prefix(w) <= parts[0]) then First(w, parts[1..])
    else
      var value := Unescape(parts[0][2..]);
      if value.None? then Throws
      else if Accepts(w, value.value) then Found(value.value)
      else First(w, parts[1..])
  }

  datatype Address = Address(pathname: string, hash: string)

  function HostKey(a: Address): Read<string> {
    First(Key, HashParts(a.hash))
  }

  function ShareToken(a: Address): Read<string> {
    First(Token, HashParts(a.hash))
  }

  /** An explicit landing wins; an invitation lands on the guest page; otherwise none. */
  function LandingPath(a: Address): Read<string> {
    var explicit := First(Landing, HashParts(a.hash));
    if !explicit.Absent? then explicit
    else if ShareToken(a).Throws? then Throws
    else if ShareToken(a).Found? then Found("/p") else Absent
  }

  function StripLeading(s: string): (r: string)
    ensures |r| <= |s|
  {
    if s != "" && s[0] == '/' then StripLeading(s[1..]) else s
  }

  function StripTrailing(s: string): (r: string)
    ensures |r| <= |s|
  {
    if s != "" && s[|s| - 1] == '/' then StripTrailing(s[..|s| - 1]) else s
  }

  /** `pathname.replace(/^\/+|\/+$/g, '')` */
  function PathId(pathname: string): string {
    StripTrailing(StripLeading(pathname))
  }

  /** The machine an address names by itself: its path first, then the fragment's first part. */
  function AddressedHost(a: Address): Option<string> {
    if IdShape(PathId(a.pathname)) then Some(PathId(a.pathname))
    else if HashParts(a.hash) != [] && IdShape(HashParts(a.hash)[0]) then Some(HashParts(a.hash)[0])
    else None
  }

  predicate Slashes(s: string) {
    forall c :: c in s ==> c == '/'
  }

  lemma {:induction false} SlashesLead(before: string, s: string)
    requires Slashes(before) && (s != "" ==> s[0] != '/')
    ensures StripLeading(before + s) == s
  {
    if before == "" {
      assert before + s == s;
    } else {
      assert before[0] in before && forall c :: c in before[1..] ==> c in before;
      assert (before + s)[1..] == before[1..] + s;
      SlashesLead(before[1..], s);
    }
  }

  lemma {:induction false} SlashesTrail(s: string, after: string)
    requires Slashes(after) && (s != "" ==> s[|s| - 1] != '/')
    ensures StripTrailing(s + after) == s
  {
    if after == "" {
      assert s + after == s;
    } else {
      var n := |after| - 1;
      assert after[n] in after && forall c :: c in after[..n] ==> c in after;
      assert (s + after)[..|s + after| - 1] == s + after[..n];
      SlashesTrail(s, after[..n]);
    }
  }

  /** A path of slashes around one identifier names that machine whatever the fragment is; with no identifier, the fragment's first part does. */
  lemma AddressNames(before: string, id: string, after: string, hash: string)
    requires Slashes(before) && Slashes(after) && '/' !in id && id != ""
    ensures var shaped := |id| == 26 && forall c :: c in id ==> '0' <= c <= '9' || 'a' <= c <= 'z';
            var named := AddressedHost(Address(before + id + after, hash));
            && (shaped ==> named == Some(id))
            && (!shaped ==> named == AddressedHost(Address("/", hash)))
            && (named.Some? ==> |named.value| == 26 && forall c :: c in named.value ==> '0' <= c <= '9' || 'a' <= c <= 'z')
  {
    assert id[0] in id && id[|id| - 1] in id;
    assert before + id + after == before + (id + after);
    SlashesLead(before, id + after);
    SlashesTrail(id, after);
    assert PathId("/") == "";
    hide StripLeading, StripTrailing, HashParts;
  }

  /** One tab: its address, its session storage and the browser's local storage. */
  class Page {
    const address: Address
    var sessionHost: Option<string>
    const lastHost: Option<string>

    constructor (address: Address, sessionHost: Option<string>, lastHost: Option<string>)
      ensures this.address == address && this.sessionHost == sessionHost && this.lastHost == lastHost
    {
      this.address, this.sessionHost, this.lastHost := address, sessionHost, lastHost;
    }

    /**
     An address that names a machine always wins over both stores. Only a machine named by the fragment is
     written to the tab; what the stores hold is read back only if it is id-shaped.
     */
    method HostIdFromLocation() returns (id: Option<string>)
      modifies this`sessionHost
      ensures AddressedHost(address).Some? ==> id == AddressedHost(address)
      ensures AddressedHost(address).None? ==>
                id == if old(sessionHost).Some? && IdShape(old(sessionHost).value) then old(sessionHost)
                      else if lastHost.Some? && IdShape(lastHost.value) then lastHost else None
      ensures sessionHost == if AddressedHost(address).Some? && !IdShape(PathId(address.pathname))
                             then AddressedHost(address) else old(sessionHost)
    {
      var fromPath := PathId(address.pathname);
      if IdShape(fromPath) { return Some(fromPath); }
      var parts := HashParts(address.hash);
      var fromHash := if parts == [] then "" else parts[0];
      if IdShape(fromHash) {
        sessionHost := Some(fromHash);
        return Some(fromHash);
      }
      if sessionHost.Some? && IdShape(sessionHost.value) { return sessionHost; }
      if lastHost.Some? && IdShape(lastHost.value) { return lastHost; }
      id := None;
    }
  }

  // ----- The handover address -------------------------------------------------------------------

  function Named(w: Wanted, p: Printer, value: string): string {
    Prefix(w) + Escape(p, value)
  }

  function Optional(w: Wanted, p: Printer, value: Option<string>): seq<string> {
    if value.Some? && value.value != "" then [Named(w, p, value.value)] else []
  }

  /** The address main() hands over to: landing, identifier, then key and token when the link carried them. */
  function Handover(landing: Option<string>, host: string, key: Option<string>, token: Option<string>): Address {
    Address(GetOr(landing, "/"),
            "#" + Join([host] + Optional(Key, UriComponent, key) + Optional(Token, UriComponent, token)))
  }

  lemma PrefixesDiffer(w: Wanted, v: Wanted, p: Printer, value: string)
    requires w != v
    ensures !(Prefix(w) <= Named(v, p, value))
  {
    assert Named(v, p, value)[0] == Prefix(v)[0];
  }

  lemma IdIsNoPart(w: Wanted, host: string)
    requires IdShape(host)
    ensures !(Prefix(w) <= host) && host != "" && '&' !in host
  {
    assert host[0] in host && host[1] in host && Prefix(w)[1] == '=';
  }

  lemma NamedIsOnePart(w: Wanted, p: Printer, value: string)
    ensures Named(w, p, value) != "" && '&' !in Named(w, p, value)
  {
    EscapedIsOnePart(p, value);
  }

  /** A named part reads back to its value; other names and the identifier are passed over. */
  lemma NamedReadsBack(w: Wanted, p: Printer, value: string, rest: seq<string>)
    requires Accepts(w, value)
    ensures First(w, [Named(w, p, value)] + rest) == Found(value)
  {
    var part := Named(w, p, value);
    assert part[2..] == Escape(p, value) && Prefix(w) <= part;
    UnescapeUndoesEscape(p, value);
  }

  /** Letters of ASCII, digits, '-' and '_'. */
  predicate Plain(s: string) {
    forall c :: c in s ==> '0' <= c <= '9' || 'a' <= c <= 'z' || 'A' <= c <= 'Z' || c == '-' || c == '_'
  }

  /**
   A lone written part is found exactly when it is acceptable: a key that is not empty, a landing of one slash
   and 1 to 32 plain characters, a token of 16 to 128 of them. Otherwise it is passed over.
   */
  lemma WrittenPartIsFoundIff(w: Wanted, p: Printer, value: string)
    ensures First(w, [(match w case Key => "k=" case Landing => "p=" case Token => "t=") + Escape(p, value)])
            == if match w
                  case Key => value != ""
                  case Landing => 1 < |value| <= 33 && value[0] == '/' && Plain(value[1..])
                  case Token => 16 <= |value| <= 128 && Plain(value)
               then Found(value) else Absent
  {
    var part := Named(w, p, value);
    assert part[2..] == Escape(p, value) && Prefix(w) <= part;
    UnescapeUndoesEscape(p, value);
    assert [part][1..] == [];
    assert First(w, []) == Absent;
    AcceptsIff(w, value);
    assert part == (match w case Key => "k=" case Landing => "p=" case Token => "t=") + Escape(p, value);
    hide Unescape, Escape, Named, Accepts, Plain;
  }

  /** An address with an invitation and a landing of its own, in either order, opens on that landing. */
  lemma ExplicitLandingWins(p: Printer, path: string, token: string)
    requires LandingShape(path)
    ensures LandingPath(Address("/", "#" + Join([Named(Token, p, token), Named(Landing, p, path)]))) == Found(path)
    ensures LandingPath(Address("/", "#" + Join([Named(Landing, p, path), Named(Token, p, token)]))) == Found(path)
  {
    var t, l := Named(Token, p, token), Named(Landing, p, path);
    NamedIsOnePart(Token, p, token);
    NamedIsOnePart(Landing, p, path);
    PrefixesDiffer(Landing, Token, p, token);
    hide Join, HashParts, Named, LandingShape, Unescape, Escape;
    PartsOfJoin([t, l]);
    PartsOfJoin([l, t]);
    NamedReadsBack(Landing, p, path, []);
    NamedReadsBack(Landing, p, path, [t]);
    PassedOver(Landing, t, [l]);
    assert [t] + [l] == [t, l] && [l] + [t] == [l, t] && [l] + [] == [l];
  }

  lemma AcceptsIff(w: Wanted, value: string)
    ensures Accepts(w, value) <==> match w
                                   case Key => value != ""
                                   case Landing => 1 < |value| <= 33 && value[0] == '/' && Plain(value[1..])
                                   case Token => 16 <= |value| <= 128 && Plain(value)
  {
    if w == Landing && |value| > 1 {
      assert forall k :: 1 <= k < |value| ==> value[k] == value[1..][k - 1] && value[k] in value[1..];
      assert forall k :: 0 <= k < |value[1..]| ==> value[1..][k] == value[k + 1];
    }
  }

  lemma PassedOver(w: Wanted, part: string, rest: seq<string>)
    requires !(Prefix(w) <= part)
    ensures First(w, [part] + rest) == First(w, rest)
  {
  }

  function Wanting(o: Option<string>): Read<string> {
    if o.None? then Absent else Found(o.value)
  }

  lemma HandoverParts(landing: Option<string>, host: string, key: Option<string>, token: Option<string>)
    requires IdShape(host)
    ensures HashParts(Handover(landing, host, key, token).hash)
            == [host] + Optional(Key, UriComponent, key) + Optional(Token, UriComponent, token)
  {
    var parts := [host] + Optional(Key, UriComponent, key) + Optional(Token, UriComponent, token);
    forall p | p in parts ensures p != "" && '&' !in p {
      IdIsNoPart(Key, host);
      if key.Some? { NamedIsOnePart(Key, UriComponent, key.value); }
      if token.Some? { NamedIsOnePart(Token, UriComponent, token.value); }
    }
    PartsOfJoin(parts);
  }

  lemma FirstInHandover(w: Wanted, host: string, key: Option<string>, token: Option<string>)
    requires w != Landing && IdShape(host) && (key.Some? ==> key.value != "") && (token.Some? ==> TokenShape(token.value))
    ensures First(w, [host] + Optional(Key, UriComponent, key) + Optional(Token, UriComponent, token))
            == Wanting(if w == Key then key else token)
  {
    hide Named, Accepts, Escape;
    var (k, t) := (Optional(Key, UriComponent, key), Optional(Token, UriComponent, token));
    assert [host] + k + t == [host] + (k + t);
    IdIsNoPart(w, host);
    PassedOver(w, host, k + t);
    FirstOfPair(w, key, token);
  }

  lemma FirstOfPair(w: Wanted, key: Option<string>, token: Option<string>)
    requires w != Landing && (key.Some? ==> key.value != "") && (token.Some? ==> TokenShape(token.value))
    ensures First(w, Optional(Key, UriComponent, key) + Optional(Token, UriComponent, token))
            == Wanting(if w == Key then key else token)
  {
    var t := Optional(Token, UriComponent, token);
    if key.Some? {
      if w == Key { NamedReadsBack(Key, UriComponent, key.value, t); }
      else {
        PrefixesDiffer(Token, Key, UriComponent, key.value);
        PassedOver(Token, Named(Key, UriComponent, key.value), t);
      }
    } else {
      assert Optional(Key, UriComponent, key) + t == t;
    }
    if token.Some? {
      assert t == [Named(Token, UriComponent, token.value)] + [];
      if w == Token { NamedReadsBack(Token, UriComponent, token.value, []); }
      else {
        PrefixesDiffer(Key, Token, UriComponent, token.value);
        PassedOver(Key, Named(Token, UriComponent, token.value), []);
      }
    }
  }

  /**
   Everything the handover address carries reads back: key and token always, the machine exactly when the
   landing segment is not itself id-shaped (the path is read first) or happens to be that machine.
   */
  lemma HandoverReadsBack(landing: Option<string>, host: string, key: Option<string>, token: Option<string>)
    requires IdShape(host) && (landing.Some? ==> LandingShape(landing.value))
    requires (key.Some? ==> key.value != "") && (token.Some? ==> TokenShape(token.value))
    ensures var a := Handover(landing, host, key, token);
            && HostKey(a) == Wanting(key) && ShareToken(a) == Wanting(token)
            && (AddressedHost(a) == Some(host)
                <==> landing.None? || !IdShape(landing.value[1..]) || landing.value[1..] == host)
  {
    var a := Handover(landing, host, key, token);
    HandoverParts(landing, host, key, token);
    FirstInHandover(Key, host, key, token);
    FirstInHandover(Token, host, key, token);
    LandingPathId(landing);
    var parts := HashParts(a.hash);
    assert parts[0] == host;
  }

  lemma LandingPathId(landing: Option<string>)
    requires landing.Some? ==> LandingShape(landing.value)
    ensures PathId(GetOr(landing, "/")) == if landing.None? then "" else landing.value[1..]
    ensures !IdShape("")
  {
    if landing.Some? {
      SegmentUnstripped(landing.value);
    } else {
      assert StripLeading("/") == StripLeading("");
    }
  }

  lemma SegmentUnstripped(path: string)
    requires |path| >= 2 && path[0] == '/' && path[1] != '/' && path[|path| - 1] != '/'
    ensures PathId(path) == path[1..]
  {
    assert StripLeading(path) == StripLeading(path[1..]) == path[1..];
  }

  // ----- Links minted by the server -------------------------------------------------------------

  /** remoteLink: the entry address of @p id with the host key and, when asked for, a landing path as it is. */
  function RemoteLink(id: string, key: string, path: string): Address {
    Address("/" + id, "#" + Join([Named(Key, QtPercent, key)] + (if path == "" then [] else ["p=" + path])))
  }

  /** playerLink: the entry address with the invitation token. */
  function PlayerLink(id: string, token: string): Address {
    Address("/" + id, "#" + Join([Named(Token, QtPercent, token)]))
  }

  lemma EntryNamesTheMachine(id: string, hash: string)
    requires IdShape(id)
    ensures AddressedHost(Address("/" + id, hash)) == Some(id)
  {
    var path := "/" + id;
    assert id[0] in id && id[|id| - 1] in id && path[1] == id[0] && path[|path| - 1] == id[|id| - 1];
    SegmentUnstripped(path);
    assert path[1..] == id;
  }

  lemma LandingIsPlain(path: string)
    requires LandingShape(path)
    ensures '%' !in path && '&' !in path
  {
  }

  lemma RemoteLinkReadsBack(id: string, key: string, path: string)
    requires IdShape(id) && key != "" && (path == "" || LandingShape(path))
    ensures var a := RemoteLink(id, key, path);
            && AddressedHost(a) == Some(id) && HostKey(a) == Found(key) && ShareToken(a) == Absent
            && LandingPath(a) == if path == "" then Absent else Found(path)
  {
    var a := RemoteLink(id, key, path);
    var k := Named(Key, QtPercent, key);
    var p := if path == "" then [] else ["p=" + path];
    EntryNamesTheMachine(id, a.hash);
    NamedIsOnePart(Key, QtPercent, key);
    if path != "" { LandingIsPlain(path); }
    forall q | q in [k] + p ensures q != "" && '&' !in q {
    }
    PartsOfJoin([k] + p);
    NamedReadsBack(Key, QtPercent, key, p);
    PrefixesDiffer(Landing, Key, QtPercent, key);
    PrefixesDiffer(Token, Key, QtPercent, key);
    PassedOver(Landing, k, p);
    PassedOver(Token, k, p);
    LandingPartReadsBack(path);
  }

  lemma LandingPartReadsBack(path: string)
    requires path == "" || LandingShape(path)
    ensures var p := if path == "" then [] else ["p=" + path];
            First(Token, p) == Absent && First(Landing, p) == (if path == "" then Absent else Found(path))
  {
    if path != "" {
      LandingIsPlain(path);
      UnescapePlain(path);
      var part := "p=" + path;
      assert part[2..] == path && Prefix(Landing) <= part && !(Prefix(Token) <= part) by { assert part[0] == 'p'; }
      var parts: seq<string> := [part];
      assert parts == [part] + [];
    }
  }

  lemma PlayerLinkReadsBack(id: string, token: string)
    requires IdShape(id) && TokenShape(token)
    ensures var a := PlayerLink(id, token);
            && AddressedHost(a) == Some(id) && ShareToken(a) == Found(token) && HostKey(a) == Absent
            && LandingPath(a) == Found("/p")
  {
    var a := PlayerLink(id, token);
    var t := Named(Token, QtPercent, token);
    EntryNamesTheMachine(id, a.hash);
    NamedIsOnePart(Token, QtPercent, token);
    PartsOfJoin([t]);
    assert [t] + [] == [t];
    NamedReadsBack(Token, QtPercent, token, []);
    PrefixesDiffer(Landing, Token, QtPercent, token);
    PrefixesDiffer(Key, Token, QtPercent, token);
    PassedOver(Landing, t, []);
    PassedOver(Key, t, []);
  }

  // ----- From the server to the application -----------------------------------------------------

  function Value(r: Read<string>): Option<string> {
    if r.Found? then Some(r.value) else None
  }

  /** main(): the address the bootstrap leaves for, once it knows the machine. */
  function Target(a: Address, host: string): Read<Address> {
    if HostKey(a).Throws? || ShareToken(a).Throws? || LandingPath(a).Throws? then Throws
    else Found(Handover(Value(LandingPath(a)), host, Value(HostKey(a)), Value(ShareToken(a))))
  }

  /** The owner's link arrives: same machine, same key, on the page it asked for. */
  lemma RemoteLinkArrives(id: string, key: string, path: string)
    requires IdShape(id) && key != "" && (path == "" || LandingShape(path))
    requires path != "" ==> !IdShape(path[1..])
    ensures var t := Target(RemoteLink(id, key, path), id);
            && t.Found? && AddressedHost(t.value) == Some(id) && HostKey(t.value) == Found(key)
            && t.value.pathname == if path == "" then "/" else path
  {
    RemoteLinkReadsBack(id, key, path);
    HandoverReadsBack(if path == "" then None else Some(path), id, Some(key), None);
  }

  /** An invitation arrives: same machine, same token, on the guest page. */
  lemma PlayerLinkArrives(id: string, token: string)
    requires IdShape(id) && TokenShape(token)
    ensures var t := Target(PlayerLink(id, token), id);
            && t.Found? && AddressedHost(t.value) == Some(id) && ShareToken(t.value) == Found(token)
            && t.value.pathname == "/p"
  {
    PlayerLinkReadsBack(id, token);
    HandoverReadsBack(Some("/p"), id, None, Some(token));
  }
}
