/** The JavaScript string operations the readers use. Case mapping covers what can matter to them: ASCII. */
module Text {
  import opened Base

  /** White space and line terminators, as `trim` sees them. */
  predicate Space(c: char) {
    var v := c as int;
    || 9 <= v <= 13 || v == 32 || v == 0xA0 || v == 0xFEFF || v == 0x1680 || 0x2000 <= v <= 0x200A
    || v == 0x2028 || v == 0x2029 || v == 0x202F || v == 0x205F || v == 0x3000
  }

  function TrimStart(s: string): (r: string)
    ensures |r| <= |s| && r == s[|s| - |r|..] && (r != "" ==> !Space(r[0]))
  {
    if s != "" && Space(s[0]) then TrimStart(s[1..]) else s
  }

  function TrimEnd(s: string): (r: string)
    ensures r <= s && (r != "" ==> !Space(r[|r| - 1]))
  {
    if s != "" && Space(s[|s| - 1]) then TrimEnd(s[..|s| - 1]) else s
  }

  function Trim(s: string): string {
    TrimEnd(TrimStart(s))
  }

  function LowerChar(c: char): char {
    if 'A' <= c <= 'Z' then (c as int + 32) as char else c
  }

  function UpperChar(c: char): char {
    if 'a' <= c <= 'z' then (c as int - 32) as char else c
  }

  function Lower(s: string): (r: string)
    ensures |r| == |s| && forall k :: 0 <= k < |s| ==> r[k] == LowerChar(s[k])
  {
    seq(|s|, k requires 0 <= k < |s| => LowerChar(s[k]))
  }

  /** `indexOf(c)`; |s| where the source has -1. */
  function IndexOf(s: string, c: char): (i: nat)
    ensures i <= |s| && (i < |s| ==> s[i] == c) && forall k :: 0 <= k < i ==> s[k] != c
  {
    if s == "" || s[0] == c then 0 else 1 + IndexOf(s[1..], c)
  }

  /** `split(c)`: one more piece than there are separators. */
  function Split(s: string, c: char): (r: seq<string>)
    ensures r != []
    decreases |s|
  {
    var i := IndexOf(s, c);
    if i == |s| then [s] else [s[..i]] + Split(s[i + 1..], c)
  }

  predicate Digit(c: char) {
    '0' <= c <= '9'
  }

  /** The leading digits' value, continuing from @p acc. */
  function Digits(s: string, acc: nat): nat {
    if s == "" || !Digit(s[0]) then acc else Digits(s[1..], acc * 10 + (s[0] as int - '0' as int))
  }

  /** `parseInt(s, 10)`; None is NaN. */
  function ParseInt(s: string): Option<int> {
    var t := TrimStart(s);
    var signed := t != "" && (t[0] == '-' || t[0] == '+');
    var d := if signed then t[1..] else t;
    if d == "" || !Digit(d[0]) then None
    else Some(if signed && t[0] == '-' then -(Digits(d, 0) as int) else Digits(d, 0))
  }

  /** A number as the source prints it. */
  function Decimal(n: nat): string {
    if n < 10 then [('0' as int + n) as char] else Decimal(n / 10) + [('0' as int + n % 10) as char]
  }

  lemma {:induction false} DigitsOn(a: string, b: string, acc: nat)
    requires forall c :: c in a ==> Digit(c)
    ensures Digits(a + b, acc) == Digits(b, Digits(a, acc))
  {
    if a == "" {
      assert a + b == b;
    } else {
      assert (a + b)[1..] == a[1..] + b && a[0] in a;
      DigitsOn(a[1..], b, acc * 10 + (a[0] as int - '0' as int));
    }
  }

  lemma {:induction false} DecimalReadsBack(n: nat)
    ensures Decimal(n) != "" && (forall c :: c in Decimal(n) ==> Digit(c)) && Digits(Decimal(n), 0) == n
  {
    if n >= 10 {
      DecimalReadsBack(n / 10);
      DigitsOn(Decimal(n / 10), [('0' as int + n % 10) as char], 0);
    }
  }

  /** `parseInt` reads a written number back, behind a minus sign too, and stops where the digits end. */
  lemma {:induction false} ParseIntReads(n: nat, rest: string)
    requires rest == "" || !Digit(rest[0])
    ensures ParseInt(Decimal(n) + rest) == Some(n) && ParseInt("-" + Decimal(n) + rest) == Some(-(n as int))
  {
    DecimalReadsBack(n);
    hide Decimal, Digits, ParseInt;
    DigitsParse(Decimal(n), rest);
  }

  lemma {:induction false} DigitsParse(d: string, rest: string)
    requires d != "" && (forall c :: c in d ==> Digit(c)) && (rest == "" || !Digit(rest[0]))
    ensures ParseInt(d + rest) == Some(Digits(d, 0)) && ParseInt("-" + d + rest) == Some(-(Digits(d, 0) as int))
  {
    hide ParseInt;
    DigitsOn(d, rest, 0);
    DigitsEnd(rest, Digits(d, 0));
    hide Digits;
    assert Digit((d + rest)[0]) by { assert d[0] in d; }
    ParsesPlain(d + rest);
    Regroup(d, rest);
  }

  lemma Regroup(d: string, rest: string)
    ensures "-" + d + rest == "-" + (d + rest)
  {
  }

  lemma {:induction false} ParsesPlain(s: string)
    requires s != "" && Digit(s[0])
    ensures ParseInt(s) == Some(Digits(s, 0)) && ParseInt("-" + s) == Some(-(Digits(s, 0) as int))
  {
    StartsSolid(s);
    StartsSolid("-" + s);
    assert ("-" + s)[1..] == s;
    hide Digits, TrimStart;
  }

  lemma DigitsEnd(rest: string, acc: nat)
    requires rest == "" || !Digit(rest[0])
    ensures Digits(rest, acc) == acc
  {
  }

  lemma StartsSolid(s: string)
    requires s != "" && !Space(s[0])
    ensures TrimStart(s) == s
  {
  }

  /** What does not start like a number is none. */
  lemma ParseIntIsNone(s: string)
    requires s == "" || !(Digit(s[0]) || s[0] == '-' || s[0] == '+' || Space(s[0]))
    ensures ParseInt(s).None?
  {
  }
}
