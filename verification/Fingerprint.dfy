/**
 `extractFingerprint` of bootstrap/v1/pairing.js: the one sha-256 fingerprint an SDP commits to (the
 fingerprint attribute of RFC 8122, section 5), or nothing at all.
 */
module Fingerprint {
  import opened Base
  import opened Bytes
  import opened Text

  const ATTRIBUTE := "a=fingerprint:"
  const ALGORITHM := "sha-256"

  predicate LineBreak(c: char) {
    c == '\r' || c == '\n'
  }

  /** Index of the first character from @p i on that is (or is not) a line break. */
  function RunEnd(s: string, i: nat, breaks: bool): (j: nat)
    requires i <= |s|
    ensures i <= j <= |s| && (forall k :: i <= k < j ==> LineBreak(s[k]) == breaks)
    ensures j < |s| ==> LineBreak(s[j]) != breaks
    decreases |s| - i
  {
    if i < |s| && LineBreak(s[i]) == breaks then RunEnd(s, i + 1, breaks) else i
  }

  /** `split(/[\r\n]+/)`: pieces between runs of line breaks. */
  function Lines(s: string): seq<string>
    decreases |s|
  {
    var end := RunEnd(s, 0, false);
    if end == |s| then [s] else [s[..end]] + Lines(s[RunEnd(s, end, true)..])
  }

  // ----- One line -------------------------------------------------------------------------------

  predicate UpperHex(c: char) {
    Digit(c) || 'A' <= c <= 'F'
  }

  /** 32 upper-case hex bytes joined by colons. */
  predicate Sha256(v: string) {
    && |v| == 95
    && forall k :: 0 <= k < 95 ==> if k % 3 == 2 then v[k] == ':' else UpperHex(v[k])
  }

  /** Upper-casing as far as it can produce hex: ASCII letters, and the ff ligature, which becomes FF. */
  function Upper(s: string): string {
    if s == "" then "" else (if s[0] as int == 0xFB00 then "FF" else [UpperChar(s[0])]) + Upper(s[1..])
  }

  /** Other: not a fingerprint line. Bad: one that is malformed or not sha-256. */
  datatype Line = Other | Bad | Commits(value: string)

  /** An algorithm, a space, a value. */
  function ReadBody(body: string): Line {
    var sep := IndexOf(body, ' ');
    if sep == 0 || sep == |body| || Lower(body[..sep]) != ALGORITHM then Bad
    else
      var value := Upper(Trim(body[sep + 1..]));
      if Sha256(value) then Commits(value) else Bad
  }

  function Read(raw: string): Line {
    var line := Trim(raw);
    if !(ATTRIBUTE <= Lower(line)) then Other else ReadBody(Trim(line[|ATTRIBUTE|..]))
  }

  // ----- The answer -----------------------------------------------------------------------------

  /** At least one fingerprint line, and every one of them commits to @p v. */
  ghost predicate Unanimous(lines: seq<string>, v: string) {
    && (exists l :: l in lines && Read(l) == Commits(v))
    && forall l :: l in lines ==> Read(l) == Other || Read(l) == Commits(v)
  }

  lemma UnanimousOnce(lines: seq<string>, v: string, v': string)
    requires Unanimous(lines, v) && Unanimous(lines, v')
    ensures v == v'
  {
  }

  /** What an sdp commits to; no sdp at all is no fingerprint. */
  ghost function Committed(sdp: Option<string>): Option<string> {
    if sdp.Some? then OnlyValue(Lines(sdp.value)) else None
  }

  ghost function OnlyValue(lines: seq<string>): (f: Option<string>)
    ensures f.Some? <==> exists v :: Unanimous(lines, v)
    ensures f.Some? ==> Unanimous(lines, f.value)
  {
    hide *;
    if exists v :: Unanimous(lines, v)
    then
      var v :| Unanimous(lines, v);
      Some(v)
    else None
  }

  method ExtractFingerprint(sdp: Option<string>) returns (found: Option<string>)
    ensures found.Some? ==> sdp.Some? && Unanimous(Lines(sdp.value), found.value) && Sha256(found.value)
    ensures found.None? ==> sdp.None? || forall v :: !Unanimous(Lines(sdp.value), v)
    ensures found == Committed(sdp)
  {
    OnlyOne(sdp);
    hide Lines, Read, Unanimous, SoFar;
    found := None;
    if sdp.None? { return; }
    var lines := Lines(sdp.value);
    NothingYet(lines);
    for i := 0 to |lines|
      invariant SoFar(lines, i, found)
    {
      var said := Read(lines[i]);
      if said.Other? {
        StillSoFar(lines, i, found, found);
        continue;
      }
      if said.Bad? || (found.Some? && found.value != said.value) {
        NoAnswerLeft(lines, i, found);
        found := None;
        return;
      }
      StillSoFar(lines, i, found, Some(said.value));
      found := Some(said.value);
    }
    AllRead(lines, found);
  }

  lemma OnlyOne(sdp: Option<string>)
    ensures forall v :: sdp.Some? && Unanimous(Lines(sdp.value), v) ==> Committed(sdp) == Some(v)
  {
    hide Lines, Unanimous;
    forall v | sdp.Some? && Unanimous(Lines(sdp.value), v) ensures Committed(sdp) == Some(v) {
      UnanimousOnce(Lines(sdp.value), v, Committed(sdp).value);
    }
  }

  /** What the loop holds after @p i lines. */
  ghost predicate SoFar(lines: seq<string>, i: nat, found: Option<string>)
    requires i <= |lines|
  {
    && (found.None? ==> forall k :: 0 <= k < i ==> Read(lines[k]) == Other)
    && (found.Some? ==> Unanimous(lines[..i], found.value) && Sha256(found.value))
  }

  lemma NothingYet(lines: seq<string>)
    ensures SoFar(lines, 0, None)
  {
  }

  lemma StillSoFar(lines: seq<string>, i: nat, found: Option<string>, found': Option<string>)
    requires i < |lines| && SoFar(lines, i, found)
    requires if Read(lines[i]) == Other then found' == found
             else found'.Some? && Read(lines[i]) == Commits(found'.value) && (found.None? || found == found')
    ensures SoFar(lines, i + 1, found')
  {
    hide Read, Sha256, Unanimous;
    CommitsToSha256(lines[i]);
    if found'.Some? {
      Extends(lines, i, found, found'.value);
    }
  }

  lemma Extends(lines: seq<string>, i: nat, found: Option<string>, v: string)
    requires i < |lines| && SoFar(lines, i, found) && (found.None? || found.value == v)
    requires Read(lines[i]) == Commits(v) || (Read(lines[i]) == Other && found.Some?)
    ensures Unanimous(lines[..i + 1], v)
  {
    hide Read, Sha256;
    UpTo(lines, i, found, v);
    UnanimousGrows(lines[..i], lines[i], v);
    assert lines[..i + 1] == lines[..i] + [lines[i]];
  }

  lemma UpTo(lines: seq<string>, i: nat, found: Option<string>, v: string)
    requires i < |lines| && SoFar(lines, i, found) && (found.None? || found.value == v)
    ensures forall k :: k in lines[..i] ==> Read(k) == Other || Read(k) == Commits(v)
  {
  }

  lemma CommitsToSha256(raw: string)
    ensures Read(raw).Commits? ==> Sha256(Read(raw).value)
  {
    hide Trim, Lower, IndexOf, Upper, Sha256;
  }

  lemma UnanimousGrows(lines: seq<string>, l: string, v: string)
    requires Read(l) == Commits(v) ==> forall k :: k in lines ==> Read(k) == Other || Read(k) == Commits(v)
    requires Read(l) == Other ==> Unanimous(lines, v)
    requires Read(l) == Other || Read(l) == Commits(v)
    ensures Unanimous(lines + [l], v)
  {
    hide Read;
    if Read(l) == Commits(v) {
      assert l in lines + [l];
    } else {
      var w :| w in lines && Read(w) == Commits(v);
      assert w in lines + [l];
    }
  }

  /** A malformed line, or one that disagrees with what was found, leaves nothing to be unanimous about. */
  lemma NoAnswerLeft(lines: seq<string>, i: nat, found: Option<string>)
    requires i < |lines| && SoFar(lines, i, found) && Read(lines[i]) != Other
    requires Read(lines[i]) == Bad || (found.Some? && Read(lines[i]) != Commits(found.value))
    ensures forall u :: !Unanimous(lines, u)
  {
    hide Read, Sha256;
    assert lines[i] in lines;
    if found.Some? {
      var w :| w in lines[..i] && Read(w) == Commits(found.value);
      assert w in lines;
    }
  }

  lemma AllRead(lines: seq<string>, found: Option<string>)
    requires SoFar(lines, |lines|, found)
    ensures found.Some? ==> Unanimous(lines, found.value) && Sha256(found.value)
    ensures found.None? ==> forall v :: !Unanimous(lines, v)
  {
  }

  // ----- What the answer depends on -------------------------------------------------------------

  /** Order and repetition do not matter: the same lines give the same answer. */
  lemma SameLinesSameAnswer(a: seq<string>, b: seq<string>, v: string)
    requires forall l :: l in a <==> l in b
    ensures Unanimous(a, v) <==> Unanimous(b, v)
  {
  }

  // ----- Texts and their lines ------------------------------------------------------------------

  predicate OneLine(l: string) {
    forall c :: c in l ==> !LineBreak(c)
  }

  /** Lines written out with CRLF after each, as an SDP is. */
  function Write(lines: seq<string>): string {
    if lines == [] then "" else lines[0] + "\r\n" + Write(lines[1..])
  }

  lemma BreakRun(l: string, s: string)
    requires OneLine(l) && (s == "" || !LineBreak(s[0]))
    ensures Lines(l + "\r\n" + s) == [l] + Lines(s)
  {
    var t := l + "\r\n" + s;
    assert forall k :: 0 <= k < |l| ==> t[k] == l[k] && l[k] in l;
    var end := RunEnd(t, 0, false);
    assert t[|l|] == '\r' && t[|l| + 1] == '\n' && t[|l| + 2..] == s;
    assert end >= |l| && end == |l|;
    var next := RunEnd(t, end, true);
    assert s != "" ==> t[|l| + 2] == s[0];
    assert next == |l| + 2;
    assert t[..end] == l && t[next..] == s;
  }

  /** Writing non-empty lines and splitting gives them back, and one empty piece for the final break. */
  lemma {:induction false} LinesOfWritten(lines: seq<string>)
    requires forall l :: l in lines ==> l != "" && OneLine(l)
    ensures Lines(Write(lines)) == lines + [""]
    decreases |lines|
  {
    if lines != [] {
      assert lines[0] in lines && forall l :: l in lines[1..] ==> l in lines;
      LinesOfWritten(lines[1..]);
      if lines[1..] != [] {
        var m := lines[1..][0];
        assert m in lines && m[0] in m && Write(lines[1..])[0] == m[0];
      }
      BreakRun(lines[0], Write(lines[1..]));
      assert lines == [lines[0]] + lines[1..];
    }
  }

  lemma EmptyLineIsOther()
    ensures Read("") == Other
  {
  }

  lemma EmptyLineAddsNothing(lines: seq<string>, v: string)
    ensures Unanimous(lines + [""], v) <==> Unanimous(lines, v)
  {
    EmptyLineIsOther();
    hide Read;
    forall l ensures l in lines + [""] <==> l in lines || l == "" {
    }
  }

  /** The answer for a written SDP is decided by the set of its lines alone. */
  lemma WrittenAnswer(a: seq<string>, b: seq<string>, v: string)
    requires forall l :: l in a ==> l != "" && OneLine(l)
    requires forall l :: l in a <==> l in b
    ensures Unanimous(Lines(Write(a)), v) <==> Unanimous(Lines(Write(b)), v)
  {
    hide Lines, Unanimous, Write;
    LinesOfWritten(a);
    LinesOfWritten(b);
    EmptyLineAddsNothing(a, v);
    EmptyLineAddsNothing(b, v);
    SameLinesSameAnswer(a, b, v);
  }

  // ----- Lines as they are spelled --------------------------------------------------------------

  function HexChar(n: nat): char
    requires n < 16
  {
    if n < 10 then ('0' as int + n) as char else ('A' as int + n - 10) as char
  }

  /** A digest as a fingerprint has it: two upper-case hex digits a byte, joined by colons. */
  function Spelled(digest: seq<byte>): string {
    if digest == [] then ""
    else [HexChar(digest[0] / 16), HexChar(digest[0] % 16)] + if |digest| == 1 then "" else ":" + Spelled(digest[1..])
  }

  /** @p v has the shape of @p n spelled bytes. */
  predicate Shaped(v: string, n: nat) {
    n > 0 && |v| == 3 * n - 1 && forall k :: 0 <= k < |v| ==> if k % 3 == 2 then v[k] == ':' else UpperHex(v[k])
  }

  lemma {:induction false} SpelledIsShaped(digest: seq<byte>)
    requires digest != []
    ensures Shaped(Spelled(digest), |digest|)
  {
    var v := Spelled(digest);
    if |digest| > 1 {
      var rest := Spelled(digest[1..]);
      SpelledIsShaped(digest[1..]);
      assert v == v[..2] + ":" + rest;
      forall k | 3 <= k < |v| ensures v[k] == rest[k - 3] && k % 3 == (k - 3) % 3 { }
    } else {
      assert v == [HexChar(digest[0] / 16), HexChar(digest[0] % 16)];
    }
  }

  lemma HexCharIs(c: char) returns (n: nat)
    requires UpperHex(c)
    ensures n < 16 && HexChar(n) == c
  {
    n := if Digit(c) then c as int - '0' as int else c as int - 'A' as int + 10;
  }

  lemma {:induction false} ShapedIsSpelled(v: string, n: nat) returns (digest: seq<byte>)
    requires Shaped(v, n)
    ensures |digest| == n && Spelled(digest) == v
    decreases n
  {
    assert UpperHex(v[0]) && UpperHex(v[1]);
    var high := HexCharIs(v[0]);
    var low := HexCharIs(v[1]);
    var first: byte := high * 16 + low;
    assert first / 16 == high && first % 16 == low;
    if n == 1 {
      digest := [first];
      assert v == [v[0], v[1]];
    } else {
      assert forall k :: 0 <= k < |v[3..]| ==> v[3..][k] == v[k + 3] && (k + 3) % 3 == k % 3;
      var rest := ShapedIsSpelled(v[3..], n - 1);
      digest := [first] + rest;
      assert digest[1..] == rest && v[2] == ':' && v == [v[0], v[1]] + ":" + v[3..];
    }
  }

  /** The value test passes exactly the spellings of 32 bytes. */
  lemma Sha256Iff(v: string)
    ensures Sha256(v) <==> exists digest: seq<byte> :: |digest| == 32 && Spelled(digest) == v
  {
    assert Sha256(v) <==> Shaped(v, 32);
    hide Sha256, Spelled;
    if Shaped(v, 32) {
      var digest := ShapedIsSpelled(v, 32);
    } else if digest: seq<byte> :| |digest| == 32 && Spelled(digest) == v {
      SpelledIsShaped(digest);
    }
  }

  /** The same text but for the case of its letters. */
  predicate SameLetters(v: string, w: string) {
    |v| == |w| && forall k :: 0 <= k < |v| ==> v[k] == w[k] || v[k] == LowerChar(w[k])
  }

  /** Either case of a spelled digest is read as the upper one. */
  lemma {:induction false} UpperSpells(v: string, digest: seq<byte>)
    requires digest != [] && SameLetters(v, Spelled(digest))
    ensures Upper(v) == Spelled(digest)
  {
    SpelledIsShaped(digest);
    hide Spelled;
    UpperOf(v, Spelled(digest));
  }

  lemma {:induction false} UpperOf(v: string, w: string)
    requires SameLetters(v, w) && forall k :: 0 <= k < |w| ==> w[k] == ':' || UpperHex(w[k])
    ensures Upper(v) == w
  {
    if v != "" {
      assert w == [w[0]] + w[1..];
      assert w[0] == ':' || UpperHex(w[0]);
      assert UpperChar(v[0]) == w[0];
      UpperOf(v[1..], w[1..]);
    }
  }

  predicate Blank(s: string) {
    forall c :: c in s ==> Space(c)
  }

  /** Not empty, with no blanks at either end. */
  predicate Solid(s: string) {
    s != "" && !Space(s[0]) && !Space(s[|s| - 1])
  }

  lemma {:induction false} TrimStartKeeps(before: string, s: string)
    requires Blank(before) && (s == "" || !Space(s[0]))
    ensures TrimStart(before + s) == s
  {
    if before == "" {
      assert before + s == s;
    } else {
      assert before[0] in before && (before + s)[1..] == before[1..] + s && forall c :: c in before[1..] ==> c in before;
      TrimStartKeeps(before[1..], s);
    }
  }

  lemma {:induction false} TrimEndKeeps(s: string, after: string)
    requires Blank(after) && (s == "" || !Space(s[|s| - 1]))
    ensures TrimEnd(s + after) == s
    decreases |after|
  {
    if after == "" {
      assert s + after == s;
    } else {
      var n := |after| - 1;
      assert after[n] in after && (s + after)[..|s| + n] == s + after[..n] && forall c :: c in after[..n] ==> c in after;
      TrimEndKeeps(s, after[..n]);
    }
  }

  /** Trimming takes off the blanks around a text and nothing else. */
  lemma TrimIs(before: string, s: string, after: string)
    requires Blank(before) && Solid(s) && Blank(after)
    ensures Trim(before + s + after) == s
  {
    assert before + s + after == before + (s + after);
    TrimStartKeeps(before, s + after);
    TrimEndKeeps(s, after);
  }

  lemma {:induction false} TrimStartDrops(s: string)
    ensures Blank(s[..|s| - |TrimStart(s)|])
  {
    if s != "" && Space(s[0]) {
      TrimStartDrops(s[1..]);
      var k := |s| - |TrimStart(s)|;
      assert s[..k] == [s[0]] + s[1..][..k - 1];
    }
  }

  lemma {:induction false} TrimEndDrops(s: string)
    ensures Blank(s[|TrimEnd(s)|..])
    decreases |s|
  {
    if s != "" && Space(s[|s| - 1]) {
      var n := |s| - 1;
      TrimEndDrops(s[..n]);
      var k := |TrimEnd(s)|;
      assert s[k..] == s[..n][k..] + [s[n]];
    }
  }

  /** And what it takes off are blanks. */
  lemma TrimParts(s: string) returns (before: string, after: string)
    ensures s == before + Trim(s) + after && Blank(before) && Blank(after)
    ensures Trim(s) != "" ==> Solid(Trim(s))
  {
    var u := TrimStart(s);
    TrimStartDrops(s);
    TrimEndDrops(u);
    before, after := s[..|s| - |u|], u[|TrimEnd(u)|..];
  }

  /** A fingerprint line taken apart: blanks, the attribute, blanks, an algorithm, a space and blanks, a value, blanks. */
  datatype Parts = Parts(before: string, name: string, gap: string, alg: string, space: string, value: string, after: string)

  function Joined(p: Parts): string {
    p.before + (p.name + p.gap + (p.alg + " " + p.space + p.value)) + p.after
  }

  predicate Proper(p: Parts) {
    && Blank(p.before) && Blank(p.gap) && Blank(p.space) && Blank(p.after) && Lower(p.name) == "a=fingerprint:"
    && p.alg != "" && ' ' !in p.alg && !Space(p.alg[0]) && Solid(p.value)
  }

  /** A line is no fingerprint line exactly when the attribute, in any case, does not lead it behind blanks. */
  lemma OtherIff(l: string)
    ensures Read(l) == Other <==> !("a=fingerprint:" <= Lower(Trim(l)))
  {
    hide Trim, Sha256, Upper, IndexOf;
  }

  lemma NameIsSolid(name: string)
    requires Lower(name) == "a=fingerprint:"
    ensures |name| == 14 && !Space(name[0])
  {
    assert LowerChar(name[0]) == 'a';
  }

  lemma AttributeOf(name: string, rest: string)
    requires Lower(name) == "a=fingerprint:"
    ensures ATTRIBUTE <= Lower(name + rest) && (name + rest)[|ATTRIBUTE|..] == rest
  {
    var l := Lower(name + rest);
    assert |name| == 14;
    assert forall k :: 0 <= k < 14 ==> l[k] == Lower(name)[k] == ATTRIBUTE[k];
    assert l[..14] == ATTRIBUTE;
  }

  /** The body of a line, as the two trims leave it. */
  lemma BodyOf(before: string, name: string, gap: string, body: string, after: string)
    requires Blank(before) && Lower(name) == "a=fingerprint:" && Blank(gap) && Solid(body) && Blank(after)
    ensures var line := Trim(before + (name + gap + body) + after);
            ATTRIBUTE <= Lower(line) && Trim(line[|ATTRIBUTE|..]) == body
  {
    hide Trim, Lower;
    NameIsSolid(name);
    assert Solid(name + gap + body);
    TrimIs(before, name + gap + body, after);
    assert name + gap + body == name + (gap + body);
    AttributeOf(name, gap + body);
    TrimIs(gap, body, "");
    assert gap + body + "" == gap + body;
  }

  lemma {:induction false} IndexBehind(word: string, rest: string)
    requires ' ' !in word
    ensures IndexOf(word + " " + rest, ' ') == |word|
  {
    var s := word + " " + rest;
    assert s[|word|] == ' ';
    assert forall k :: 0 <= k < |word| ==> s[k] == word[k] && word[k] in word;
  }

  lemma BodySays(alg: string, rest: string)
    requires alg != "" && ' ' !in alg
    ensures ReadBody(alg + " " + rest)
            == if Lower(alg) == "sha-256" && Sha256(Upper(Trim(rest))) then Commits(Upper(Trim(rest))) else Bad
  {
    IndexBehind(alg, rest);
    var body := alg + " " + rest;
    assert body[..|alg|] == alg && body[|alg| + 1..] == rest;
    hide Trim, Lower, Upper, Sha256, IndexOf;
  }

  /**
   What a line says by its text: it commits to its value in upper case exactly when its algorithm is sha-256,
   in any case, and that value is 32 spelled bytes; any other algorithm or value makes it a bad line.
   */
  lemma LineSays(p: Parts)
    requires Proper(p)
    ensures Read(Joined(p)) ==
            if Lower(p.alg) == "sha-256" && (exists digest: seq<byte> :: |digest| == 32 && Spelled(digest) == Upper(p.value))
            then Commits(Upper(p.value)) else Bad
  {
    var tail := p.space + p.value;
    LineReads(p);
    BodySays(p.alg, tail);
    TrimIs(p.space, p.value, "");
    Sha256Iff(Upper(p.value));
    hide *;
    assert tail + "" == tail;
  }

  lemma ReadBehind(raw: string)
    requires ATTRIBUTE <= Lower(Trim(raw))
    ensures Read(raw) == ReadBody(Trim(Trim(raw)[|ATTRIBUTE|..]))
  {
    hide Trim, ReadBody;
  }

  lemma SolidBody(alg: string, space: string, value: string)
    requires alg != "" && !Space(alg[0]) && Solid(value)
    ensures Solid(alg + " " + (space + value)) && alg + " " + space + value == alg + " " + (space + value)
  {
    var body := alg + " " + (space + value);
    assert body[0] == alg[0] && body[|body| - 1] == value[|value| - 1];
  }

  lemma LineReads(p: Parts)
    requires Proper(p)
    ensures Read(Joined(p)) == ReadBody(p.alg + " " + (p.space + p.value))
  {
    SolidBody(p.alg, p.space, p.value);
    BodyOf(p.before, p.name, p.gap, p.alg + " " + (p.space + p.value), p.after);
    assert Joined(p) == p.before + (p.name + p.gap + (p.alg + " " + (p.space + p.value))) + p.after;
    hide *;
    ReadBehind(Joined(p));
  }

  /** An attribute with one word, or nothing, behind it is a bad line. */
  lemma NoValueIsBad(before: string, name: string, gap: string, word: string, after: string)
    requires Blank(before) && Lower(name) == "a=fingerprint:" && Blank(gap) && Blank(after) && Solid(word) && ' ' !in word
    ensures Read(before + (name + gap + word) + after) == Bad
  {
    BodyOf(before, name, gap, word, after);
    assert forall k :: 0 <= k < |word| ==> word[k] in word;
    assert ReadBody(word) == Bad by { assert IndexOf(word, ' ') == |word|; }
    hide ReadBody, Trim, Lower, Upper, Sha256, IndexOf;
  }

  lemma CommitsReads(body: string)
    requires ReadBody(body).Commits?
    ensures var sep := IndexOf(body, ' ');
            && 0 < sep < |body| && Lower(body[..sep]) == "sha-256" && Trim(body[sep + 1..]) != ""
            && ReadBody(body) == Commits(Upper(Trim(body[sep + 1..])))
  {
    hide Trim, Lower, IndexOf;
  }

  /** Where a solid text ends, its last piece has blanks before it only. */
  lemma OnlyBefore(s: string, front: string, rest: string) returns (gap: string)
    requires Solid(s) && s == front + rest && Trim(rest) != ""
    ensures Blank(gap) && rest == gap + Trim(rest) && Solid(Trim(rest))
  {
    var before, after := TrimParts(rest);
    hide Trim, Solid, Blank;
    SolidEnds(s, front + before + Trim(rest), after);
    gap := before;
  }

  lemma Cut(s: string, k: nat)
    requires k < |s|
    ensures s == s[..k + 1] + s[k + 1..] && s == s[..k] + [s[k]] + s[k + 1..]
  {
  }

  lemma NoSpaceBefore(body: string)
    ensures ' ' !in body[..IndexOf(body, ' ')]
  {
  }

  lemma Regroup(alg: string, space: string, value: string)
    ensures alg + " " + (space + value) == alg + " " + space + value
  {
  }

  /** A body taken apart. */
  lemma BodyParts(body: string) returns (alg: string, space: string, value: string)
    requires Solid(body) && ReadBody(body).Commits?
    ensures body == alg + " " + space + value && alg != "" && ' ' !in alg && !Space(alg[0]) && Blank(space) && Solid(value)
    ensures Lower(alg) == "sha-256" && ReadBody(body) == Commits(Upper(value))
  {
    CommitsReads(body);
    NoSpaceBefore(body);
    var sep := IndexOf(body, ' ');
    Cut(body, sep);
    assert body != "" && !Space(body[0]) && [body[sep]] == " ";
    hide *;
    alg := body[..sep];
    assert alg[0] == body[0];
    space := OnlyBefore(body, body[..sep + 1], body[sep + 1..]);
    value := Trim(body[sep + 1..]);
    Regroup(alg, space, value);
  }

  /** Every line that commits is such a line. */
  lemma CommitsIsProper(l: string) returns (p: Parts)
    requires Read(l).Commits?
    ensures Proper(p) && Joined(p) == l && Lower(p.alg) == "sha-256" && Read(l) == Commits(Upper(p.value))
  {
    var line := Trim(l);
    var before, after := TrimParts(l);
    var rest := line[|ATTRIBUTE|..];
    var name := NameOf(line);
    assert ReadBody(Trim(rest)).Commits? && Read(l) == ReadBody(Trim(rest)) by { hide Trim, ReadBody; }
    EmptyBodyIsBad();
    hide *;
    var gap := OnlyBefore(line, name, rest);
    var alg, space, value := BodyParts(Trim(rest));
    p := Parts(before, name, gap, alg, space, value, after);
    PartsAre(p, line, rest);
  }

  lemma EmptyBodyIsBad()
    ensures ReadBody("") == Bad
  {
  }

  lemma NameOf(line: string) returns (name: string)
    requires ATTRIBUTE <= Lower(line)
    ensures line == name + line[|ATTRIBUTE|..] && Lower(name) == "a=fingerprint:" && line != ""
  {
    name := line[..|ATTRIBUTE|];
    assert Lower(name) == Lower(line)[..|ATTRIBUTE|];
  }

  lemma PartsAre(p: Parts, line: string, rest: string)
    requires line == p.name + rest && rest == p.gap + (p.alg + " " + p.space + p.value)
    requires Blank(p.before) && Blank(p.gap) && Blank(p.space) && Blank(p.after) && Lower(p.name) == "a=fingerprint:"
    requires p.alg != "" && ' ' !in p.alg && !Space(p.alg[0]) && Solid(p.value)
    ensures Joined(p) == p.before + line + p.after && Proper(p)
  {
    hide Blank, Lower, Space, Solid;
    assert line == p.name + p.gap + (p.alg + " " + p.space + p.value);
  }

  lemma SolidEnds(s: string, front: string, after: string)
    requires Solid(s) && s == front + after && Blank(after)
    ensures after == ""
  {
    if after != "" { BlankEnds(after); }
  }

  lemma BlankEnds(after: string)
    requires Blank(after) && after != ""
    ensures Space(after[|after| - 1])
  {
    assert after[|after| - 1] in after;
  }

  // ----- The answer for a written SDP -----------------------------------------------------------

  /** The line gives this digest, by sha-256. */
  ghost predicate Gives(l: string, digest: seq<byte>) {
    exists p: Parts :: Proper(p) && Joined(p) == l && Lower(p.alg) == "sha-256" && Upper(p.value) == Spelled(digest)
  }

  lemma GivesIff(l: string, digest: seq<byte>)
    requires |digest| == 32
    ensures Gives(l, digest) <==> Read(l) == Commits(Spelled(digest))
  {
    hide Read, Proper, Joined, Upper, Spelled;
    if Gives(l, digest) {
      var p: Parts :| Proper(p) && Joined(p) == l && Lower(p.alg) == "sha-256" && Upper(p.value) == Spelled(digest);
      LineSays(p);
    }
    if Read(l) == Commits(Spelled(digest)) {
      var p := CommitsIsProper(l);
    }
  }

  /**
   By the text of the lines alone: a written SDP commits to a digest exactly when some line gives it and every
   line either gives it, too, or is no fingerprint line.
   */
  lemma CommittedIff(lines: seq<string>, digest: seq<byte>)
    requires |digest| == 32 && forall l :: l in lines ==> l != "" && OneLine(l)
    ensures Committed(Some(Write(lines))) == Some(Spelled(digest)) <==>
            && (exists l :: l in lines && Gives(l, digest))
            && (forall l :: l in lines ==> Gives(l, digest) || !("a=fingerprint:" <= Lower(Trim(l))))
  {
    LinesOfWritten(lines);
    EmptyLineAddsNothing(lines, Spelled(digest));
    OnlyOne(Some(Write(lines)));
    hide Read, Lines, Write, Gives, Spelled, Lower, Trim;
    forall l ensures (Gives(l, digest) <==> Read(l) == Commits(Spelled(digest)))
                  && (Read(l) == Other <==> !("a=fingerprint:" <= Lower(Trim(l)))) {
      GivesIff(l, digest);
      OtherIff(l);
    }
  }

  /** One fingerprint line by another algorithm, or not of 32 bytes, anywhere, and there is no answer. */
  lemma ForeignLineSilences(lines: seq<string>, p: Parts)
    requires forall l :: l in lines ==> l != "" && OneLine(l)
    requires Proper(p) && Joined(p) in lines
    requires Lower(p.alg) != "sha-256" || forall digest: seq<byte> :: |digest| == 32 ==> Spelled(digest) != Upper(p.value)
    ensures Committed(Some(Write(lines))) == None
  {
    LinesOfWritten(lines);
    LineSays(p);
    hide Read, Lines, Write, Spelled, Lower, Upper, Proper, Joined;
    assert Joined(p) in lines + [""];
  }

  /** And so do two lines that give different digests. */
  lemma DisagreeingLinesSilence(lines: seq<string>, l: string, m: string, digest: seq<byte>, digest': seq<byte>)
    requires forall k :: k in lines ==> k != "" && OneLine(k)
    requires l in lines && m in lines && Gives(l, digest) && Gives(m, digest')
    requires |digest| == |digest'| == 32 && digest != digest'
    ensures Committed(Some(Write(lines))) == None
  {
    LinesOfWritten(lines);
    GivesIff(l, digest);
    GivesIff(m, digest');
    if Spelled(digest) == Spelled(digest') { SpelledOnce(digest, digest'); }
    hide Read, Lines, Write, Spelled, Gives, Unanimous;
    TwoValuesNoAnswer(lines + [""], l, m);
  }

  lemma TwoValuesNoAnswer(lines: seq<string>, l: string, m: string)
    requires l in lines && m in lines && Read(l).Commits? && Read(m).Commits? && Read(l) != Read(m)
    ensures forall v :: !Unanimous(lines, v)
  {
    hide Read;
  }

  lemma {:induction false} SpelledOnce(digest: seq<byte>, digest': seq<byte>)
    requires |digest| == |digest'| && Spelled(digest) == Spelled(digest')
    ensures digest == digest'
  {
    if digest != [] {
      var v := Spelled(digest);
      HexOnce(digest[0], digest'[0], v);
      if |digest| > 1 {
        assert v[3..] == Spelled(digest[1..]) && v[3..] == Spelled(digest'[1..]);
        SpelledOnce(digest[1..], digest'[1..]);
        assert digest == [digest[0]] + digest[1..] && digest' == [digest'[0]] + digest'[1..];
      }
    }
  }

  lemma HexOnce(a: byte, b: byte, v: string)
    requires |v| >= 2 && v[0] == HexChar(a / 16) == HexChar(b / 16) && v[1] == HexChar(a % 16) == HexChar(b % 16)
    ensures a == b
  {
    HexCharOnce(a / 16, b / 16);
    HexCharOnce(a % 16, b % 16);
    assert a == a / 16 * 16 + a % 16 && b == b / 16 * 16 + b % 16;
  }

  lemma HexCharOnce(n: nat, m: nat)
    requires n < 16 && m < 16 && HexChar(n) == HexChar(m)
    ensures n == m
  {
  }
}
