/**
 The cookie jar of bootstrap/v1/tunnel.js, kept in memory and split over two stores: cookies without a
 lifetime go to the tab's session storage, the others to the browser's local storage.
 */
module CookieJar {
  import opened Base
  import opened Text

  /** A lifetime in ms since the epoch. Endless is the Infinity an enormous Max-Age adds up to. */
  datatype Expiry = Session | At(ms: int) | Endless
  datatype Rec = Rec(value: string, expires: Expiry)
  type Saved = map<string, Rec>

  /** `rec.expires` is truthy. */
  predicate Persistent(r: Rec) {
    r.expires.Endless? || (r.expires.At? && r.expires.ms != 0)
  }

  predicate Expired(r: Rec, now: int) {
    Persistent(r) && r.expires.At? && r.expires.ms <= now
  }

  function Live(jar: Saved, now: int): Saved {
    map n | n in jar && !Expired(jar[n], now) :: jar[n]
  }

  // ----- One Set-Cookie line --------------------------------------------------------------------

  /** What one attribute says about the lifetime. */
  datatype Effect = Silent | Ends | Until(expires: Expiry)

  /** Milliseconds from a Max-Age: past 2^1024 a double is Infinity. */
  function AfterSeconds(seconds: int, now: int): Expiry {
    if seconds * 1000 >= Pow2(1024) then Endless else At(now + seconds * 1000)
  }

  function EffectOf(attr: string, now: int, parseDate: string -> Option<int>): Effect {
    var t := Lower(Trim(attr));
    if "max-age=" <= t then
      var seconds := ParseInt(t[8..]);
      if seconds.None? then Silent else if seconds.value <= 0 then Ends else Until(AfterSeconds(seconds.value, now))
    else if "expires=" <= t then
      var when := parseDate(Trim(attr)[8..]);
      if when.None? then Silent else if when.value <= now then Ends else Until(At(when.value))
    else Silent
  }

  /** The lifetime the last telling attribute gives. */
  function LastUntil(attrs: seq<string>, now: int, parseDate: string -> Option<int>): Expiry {
    if attrs == [] then Session
    else if EffectOf(attrs[|attrs| - 1], now, parseDate).Until? then EffectOf(attrs[|attrs| - 1], now, parseDate).expires
    else LastUntil(attrs[..|attrs| - 1], now, parseDate)
  }

  predicate AnyEnds(attrs: seq<string>, now: int, parseDate: string -> Option<int>) {
    exists k :: 0 <= k < |attrs| && EffectOf(attrs[k], now, parseDate).Ends?
  }

  /** The attribute loop: a later lifetime replaces an earlier one, a delete sticks. */
  method Lifetime(attrs: seq<string>, now: int, parseDate: string -> Option<int>) returns (expires: Expiry, deleted: bool)
    ensures deleted <==> AnyEnds(attrs, now, parseDate)
    ensures expires == LastUntil(attrs, now, parseDate)
  {
    hide EffectOf;
    expires, deleted := Session, false;
    for i := 0 to |attrs|
      invariant deleted <==> exists k :: 0 <= k < i && EffectOf(attrs[k], now, parseDate).Ends?
      invariant expires == LastUntil(attrs[..i], now, parseDate)
    {
      assert attrs[..i + 1][..i] == attrs[..i] && attrs[..i + 1][i] == attrs[i];
      var effect := EffectOf(attrs[i], now, parseDate);
      if effect.Ends? { deleted := true; }
      if effect.Until? { expires := effect.expires; }
    }
    assert attrs[..|attrs|] == attrs;
  }

  datatype Change = Skip | Delete(name: string) | Put(name: string, rec: Rec)

  function ChangeOf(line: string, now: int, parseDate: string -> Option<int>): Change {
    var pieces := Split(line, ';');
    var pair := pieces[0];
    var eq := IndexOf(pair, '=');
    if eq == 0 || eq == |pair| then Skip
    else
      var (name, value) := (Trim(pair[..eq]), Trim(pair[eq + 1..]));
      if AnyEnds(pieces[1..], now, parseDate) || value == "" then Delete(name)
      else Put(name, Rec(value, LastUntil(pieces[1..], now, parseDate)))
  }

  function Apply(jar: Saved, c: Change): Saved {
    match c case Skip => jar case Delete(name) => jar - {name} case Put(name, rec) => jar[name := rec]
  }

  function ApplyLines(jar: Saved, lines: seq<string>, now: int, parseDate: string -> Option<int>): Saved {
    if lines == [] then jar
    else Apply(ApplyLines(jar, lines[..|lines| - 1], now, parseDate), ChangeOf(lines[|lines| - 1], now, parseDate))
  }

  // ----- A line by its text ---------------------------------------------------------------------

  lemma Keyed(attr: string, key: string, text: string)
    requires Trim(attr) == key + text
    ensures Lower(Trim(attr)) == Lower(key) + Lower(text) && Trim(attr)[|key|..] == text
  {
  }

  lemma NumberIsLower(n: nat, rest: string)
    requires Lower(rest) == rest
    ensures Lower(Decimal(n) + rest) == Decimal(n) + rest && Lower("-" + Decimal(n) + rest) == "-" + Decimal(n) + rest
  {
    DecimalReadsBack(n);
    var d, t := Decimal(n), "-" + Decimal(n) + rest;
    hide Decimal;
    forall k | 0 <= k < |t| ensures Lower(t)[k] == t[k] {
      if 1 <= k <= |d| { assert t[k] == d[k - 1] && t[k] in d; }
      if k > |d| { assert t[k] == rest[k - 1 - |d|] && Lower(rest)[k - 1 - |d|] == rest[k - 1 - |d|]; }
    }
    assert Lower(d + rest) == Lower(t)[1..] && d + rest == t[1..];
  }

  /**
   Max-Age, in any case: zero or less ends the cookie, n seconds keep it 1000n ms from now, and a number of ms
   no double holds keeps it for good. Whatever follows the digits is ignored.
   */
  lemma MaxAgeSays(attr: string, key: string, n: nat, rest: string, now: int, parseDate: string -> Option<int>)
    requires Lower(key) == "max-age=" && Lower(rest) == rest && (rest == "" || !Digit(rest[0]))
    ensures Trim(attr) == key + (Decimal(n) + rest) ==>
              EffectOf(attr, now, parseDate) == if n == 0 then Ends
                                                else if 1000 * n < Pow2(1024) then Until(At(now + 1000 * n)) else Until(Endless)
    ensures Trim(attr) == key + ("-" + Decimal(n) + rest) ==> EffectOf(attr, now, parseDate) == Ends
  {
    hide Trim, ParseInt, Pow2, Decimal, EffectOf, Lower;
    ParseIntReads(n, rest);
    NumberIsLower(n, rest);
    if Trim(attr) == key + (Decimal(n) + rest) { MaxAgeReads(attr, key, Decimal(n) + rest, now, parseDate); }
    if Trim(attr) == key + ("-" + Decimal(n) + rest) { MaxAgeReads(attr, key, "-" + Decimal(n) + rest, now, parseDate); }
  }

  lemma MaxAgeReads(attr: string, key: string, text: string, now: int, parseDate: string -> Option<int>)
    requires Lower(key) == "max-age=" && Trim(attr) == key + text
    ensures EffectOf(attr, now, parseDate) == match ParseInt(Lower(text))
                                              case None => Silent
                                              case Some(n) => if n <= 0 then Ends else Until(AfterSeconds(n, now))
  {
    hide Trim, ParseInt, Pow2;
    Keyed(attr, key, text);
    var t := Lower(Trim(attr));
    assert t[8..] == Lower(text) && "max-age=" <= t;
  }

  /** A Max-Age that is no number, a date that is none, and any other attribute say nothing. */
  lemma OthersAreSilent(attr: string, key: string, text: string, now: int, parseDate: string -> Option<int>)
    requires Trim(attr) == key + text
    ensures Lower(key) == "max-age=" && (text == "" || !(Digit(text[0]) || text[0] in "+-" || Space(text[0])))
            ==> EffectOf(attr, now, parseDate) == Silent
    ensures Lower(key) == "expires=" && parseDate(text).None? ==> EffectOf(attr, now, parseDate) == Silent
    ensures key == "" && !("max-age=" <= Lower(text)) && !("expires=" <= Lower(text)) ==> EffectOf(attr, now, parseDate) == Silent
  {
    hide Trim, ParseInt, Pow2;
    Keyed(attr, key, text);
    if Lower(key) == "max-age=" {
      MaxAgeReads(attr, key, text, now, parseDate);
      if text == "" || !(Digit(text[0]) || text[0] in "+-" || Space(text[0])) {
        assert Lower(text) == "" || Lower(text)[0] == LowerChar(text[0]);
        ParseIntIsNone(Lower(text));
      }
    }
    if Lower(key) == "expires=" { ExpiresReads(attr, key, text, now, parseDate); }
    if key == "" { assert key + text == text; }
  }

  lemma ExpiresReads(attr: string, key: string, text: string, now: int, parseDate: string -> Option<int>)
    requires Lower(key) == "expires=" && Trim(attr) == key + text
    ensures EffectOf(attr, now, parseDate) == match parseDate(text)
                                              case None => Silent
                                              case Some(ms) => if ms <= now then Ends else Until(At(ms))
  {
    hide Trim, ParseInt, Pow2;
    Keyed(attr, key, text);
    var t := Lower(Trim(attr));
    assert "expires=" <= t && t[0] == 'e';
  }

  /** Expires, in any case: a date that is past, or now, ends the cookie, a later one keeps it until then. */
  lemma ExpiresSays(attr: string, key: string, date: string, ms: int, now: int, parseDate: string -> Option<int>)
    requires Lower(key) == "expires=" && Trim(attr) == key + date && parseDate(date) == Some(ms)
    ensures EffectOf(attr, now, parseDate) == if now < ms then Until(At(ms)) else Ends
  {
    ExpiresReads(attr, key, date, now, parseDate);
  }

  function Tail(attrs: seq<string>): string {
    if attrs == [] then "" else ";" + (attrs[0] + Tail(attrs[1..]))
  }

  lemma IndexAt(a: string, c: char, b: string)
    requires c !in a && (b == "" || b[0] == c)
    ensures IndexOf(a + b, c) == |a|
  {
    assert forall k :: 0 <= k < |a| ==> (a + b)[k] == a[k] && a[k] in a;
    assert b != "" ==> (a + b)[|a|] == c;
  }

  lemma {:induction false} SplitFirst(first: string, rest: string)
    requires ';' !in first
    ensures Split(first, ';') == [first]
    ensures Split(first + (";" + rest), ';') == [first] + Split(rest, ';')
  {
    assert first + "" == first;
    IndexAt(first, ';', "");
    IndexAt(first, ';', ";" + rest);
    var s := first + (";" + rest);
    assert s[..|first|] == first && s[|first| + 1..] == rest;
    hide IndexOf;
  }

  lemma {:induction false} SplitTail(first: string, attrs: seq<string>)
    requires ';' !in first && forall a :: a in attrs ==> ';' !in a
    ensures Split(first + Tail(attrs), ';') == [first] + attrs
    decreases |attrs|
  {
    hide Split;
    if attrs == [] {
      SplitFirst(first, "");
      assert first + "" == first && [first] + attrs == [first];
    } else {
      assert attrs[0] in attrs && forall a :: a in attrs[1..] ==> a in attrs;
      SplitFirst(first, attrs[0] + Tail(attrs[1..]));
      SplitTail(attrs[0], attrs[1..]);
      assert attrs == [attrs[0]] + attrs[1..];
    }
  }

  /** @p e is what the last telling one of the attributes gives; a cookie none tells about is the session's. */
  ghost predicate LastSaid(e: Expiry, attrs: seq<string>, now: int, parseDate: string -> Option<int>) {
    || (e == Session && forall k :: 0 <= k < |attrs| ==> !EffectOf(attrs[k], now, parseDate).Until?)
    || exists k :: 0 <= k < |attrs| && EffectOf(attrs[k], now, parseDate) == Until(e)
                   && forall m :: k < m < |attrs| ==> !EffectOf(attrs[m], now, parseDate).Until?
  }

  lemma {:induction false} LastUntilIs(attrs: seq<string>, now: int, parseDate: string -> Option<int>)
    ensures LastSaid(LastUntil(attrs, now, parseDate), attrs, now, parseDate)
  {
    hide EffectOf;
    if attrs != [] {
      var n := |attrs| - 1;
      if !EffectOf(attrs[n], now, parseDate).Until? {
        LastUntilIs(attrs[..n], now, parseDate);
        assert forall k :: 0 <= k < n ==> attrs[..n][k] == attrs[k];
      }
    }
  }

  /**
   "name=value" and its attributes, as written: the name is deleted when the value is blank or an attribute
   ends it, and is otherwise put with the lifetime last said. A line that starts with "=" is skipped.
   */
  lemma LineSays(name: string, value: string, attrs: seq<string>, now: int, parseDate: string -> Option<int>)
    requires '=' !in name && ';' !in name && ';' !in value && forall a :: a in attrs ==> ';' !in a
    ensures var c := ChangeOf(name + "=" + value + Tail(attrs), now, parseDate);
            if name == "" then c == Skip
            else if Trim(value) == "" || exists k :: 0 <= k < |attrs| && EffectOf(attrs[k], now, parseDate) == Ends
            then c == Delete(Trim(name))
            else c.Put? && c.name == Trim(name) && c.rec.value == Trim(value)
                 && LastSaid(c.rec.expires, attrs, now, parseDate)
  {
    hide Split, IndexOf, Trim, EffectOf, LastUntil, LastSaid, Tail, ChangeOf;
    var pair := name + "=" + value;
    SplitTail(pair, attrs);
    PairIs(name, value);
    LastUntilIs(attrs, now, parseDate);
    ChangeIs(pair + Tail(attrs), pair, attrs, name, value, now, parseDate);
  }

  lemma PairIs(name: string, value: string)
    requires '=' !in name
    ensures var pair := name + "=" + value;
            IndexOf(pair, '=') == |name| < |pair| && pair[..|name|] == name && pair[|name| + 1..] == value
  {
    var pair := name + "=" + value;
    assert pair == name + ("=" + value);
    IndexAt(name, '=', "=" + value);
  }

  lemma ChangeIs(line: string, pair: string, attrs: seq<string>, name: string, value: string, now: int, parseDate: string -> Option<int>)
    requires Split(line, ';') == [pair] + attrs
    requires IndexOf(pair, '=') == |name| < |pair| && pair[..|name|] == name && pair[|name| + 1..] == value
    ensures ChangeOf(line, now, parseDate)
            == if name == "" then Skip
               else if AnyEnds(attrs, now, parseDate) || Trim(value) == "" then Delete(Trim(name))
               else Put(Trim(name), Rec(Trim(value), LastUntil(attrs, now, parseDate)))
  {
    hide Split, IndexOf, Trim, AnyEnds, LastUntil;
    assert ([pair] + attrs)[1..] == attrs;
  }

  /** A line whose first piece has no "=" changes nothing. */
  lemma NoPairIsSkipped(first: string, attrs: seq<string>, now: int, parseDate: string -> Option<int>)
    requires '=' !in first && ';' !in first && forall a :: a in attrs ==> ';' !in a
    ensures ChangeOf(first + Tail(attrs), now, parseDate) == Skip
  {
    SplitTail(first, attrs);
    assert first + "" == first;
    IndexAt(first, '=', "");
    hide Split, IndexOf, Trim, AnyEnds, LastUntil, Tail;
  }

  // ----- The two stores -------------------------------------------------------------------------

  /** JSON has no Infinity: it is written as null. */
  function Stored(r: Rec): Rec {
    if r.expires.Endless? then r.(expires := Session) else r
  }

  function TabPart(jar: Saved): Saved {
    map n | n in jar && !Persistent(jar[n]) :: Stored(jar[n])
  }

  function DiskPart(jar: Saved): Saved {
    map n | n in jar && Persistent(jar[n]) :: Stored(jar[n])
  }

  /** `_load`: what a store holds, minus what expired, over what is already there. */
  function Load(jar: Saved, saved: Option<Saved>, now: int): Saved {
    if saved.None? then jar else jar + Live(saved.value, now)
  }

  /** A jar opened on two stores. */
  function Open(tab: Option<Saved>, disk: Option<Saved>, now: int): Saved {
    Load(Load(map[], tab, now), disk, now)
  }

  datatype State = State(jar: Saved, tab: Option<Saved>, disk: Option<Saved>)

  /** `_save`; the session write comes first, and a refused write ends the attempt. */
  function Save(s: State, tabOk: bool, diskOk: bool): State {
    if !tabOk then s
    else s.(tab := Some(TabPart(s.jar)), disk := if diskOk then Some(DiskPart(s.jar)) else s.disk)
  }

  datatype Absorbed = Absorbed(lines: seq<string>, now: int, tabOk: bool, diskOk: bool)

  function Absorb(s: State, a: Absorbed, parseDate: string -> Option<int>): State {
    Save(s.(jar := ApplyLines(s.jar, a.lines, a.now, parseDate)), a.tabOk, a.diskOk)
  }

  function Run(s: State, as_: seq<Absorbed>, parseDate: string -> Option<int>): State {
    if as_ == [] then s else Absorb(Run(s, as_[..|as_| - 1], parseDate), as_[|as_| - 1], parseDate)
  }

  ghost predicate Synced(s: State) {
    s.tab == Some(TabPart(s.jar)) && s.disk == Some(DiskPart(s.jar))
  }

  // ----- The stores agree with memory -----------------------------------------------------------

  /** After any history whose last write both stores accepted, the stores mirror the jar. */
  lemma AcceptedWritesSync(s: State, as_: seq<Absorbed>, parseDate: string -> Option<int>)
    requires as_ != [] && as_[|as_| - 1].tabOk && as_[|as_| - 1].diskOk
    ensures Synced(Run(s, as_, parseDate))
  {
  }

  function AllStored(jar: Saved): Saved {
    map n | n in jar :: Stored(jar[n])
  }

  /** A jar reopened later is the old one minus what expired by then, as JSON could write it. */
  lemma ReopenedJar(s: State, later: int)
    requires Synced(s)
    ensures Open(s.tab, s.disk, later) == AllStored(Live(s.jar, later))
  {
  }

  /** Whatever a page absorbed, as long as its last write was accepted, the next page opens the same jar. */
  lemma NextPageOpensTheSameJar(tab: Option<Saved>, disk: Option<Saved>, since: int, as_: seq<Absorbed>, later: int,
                                parseDate: string -> Option<int>)
    requires as_ != [] && as_[|as_| - 1].tabOk && as_[|as_| - 1].diskOk
    ensures var s := Run(State(Open(tab, disk, since), tab, disk), as_, parseDate);
            Open(s.tab, s.disk, later) == AllStored(Live(s.jar, later))
  {
    var start := State(Open(tab, disk, since), tab, disk);
    AcceptedWritesSync(start, as_, parseDate);
    hide Run;
    ReopenedJar(Run(start, as_, parseDate), later);
  }

  /** A cookie is still good: it has no end, or one that lies ahead; 0 ms counts as none. */
  predicate StillGood(r: Rec, later: int) {
    match r.expires
    case Session => true
    case Endless => true
    case At(ms) => ms == 0 || later < ms
  }

  /** Name by name: the next page has what is still good, with its value and its lifetime, and nothing else. */
  lemma NextPageHolds(s: State, later: int, name: string)
    requires Synced(s)
    ensures var next := Open(s.tab, s.disk, later);
            && (name in next <==> name in s.jar && StillGood(s.jar[name], later))
            && (name in next ==> next[name].value == s.jar[name].value
                                 && next[name].expires == match s.jar[name].expires
                                                          case Session => Session
                                                          case Endless => Session
                                                          case At(ms) => At(ms))
  {
  }

  /** After a restart only what was to outlive the tab is left of that. */
  lemma RestartHolds(s: State, later: int, name: string)
    requires Synced(s)
    ensures var next := Open(None, s.disk, later);
            && (name in next <==> && name in s.jar && StillGood(s.jar[name], later)
                                  && s.jar[name].expires != Session && s.jar[name].expires != At(0))
            && (name in next ==> next[name].value == s.jar[name].value)
  {
  }

  /** It is exactly the old jar minus what expired iff no live lifetime overflowed. */
  lemma ReopenedExactlyIff(s: State, later: int)
    requires Synced(s)
    ensures Open(s.tab, s.disk, later) == Live(s.jar, later)
            <==> forall n :: n in Live(s.jar, later) ==> !s.jar[n].expires.Endless?
  {
  }

  /** A browser restart: only the unexpired cookies that asked to be kept come back. */
  lemma RestartKeepsThePersistent(s: State, later: int)
    requires Synced(s)
    ensures Open(None, s.disk, later) == AllStored(Live(map n | n in s.jar && Persistent(s.jar[n]) :: s.jar[n], later))
  {
  }

  /** What a line does to one name. */
  predicate Puts(line: string, name: string, now: int, parseDate: string -> Option<int>) {
    var c := ChangeOf(line, now, parseDate);
    c.Put? && c.name == name
  }

  predicate Deletes(line: string, name: string, now: int, parseDate: string -> Option<int>) {
    ChangeOf(line, now, parseDate) == Delete(name)
  }

  /** The last line that names a cookie decides: gone after a batch is what was deleted and not put since. */
  lemma {:induction false} GoneIff(jar: Saved, lines: seq<string>, name: string, now: int, parseDate: string -> Option<int>)
    ensures name !in ApplyLines(jar, lines, now, parseDate) <==>
            || (exists k :: 0 <= k < |lines| && Deletes(lines[k], name, now, parseDate)
                            && forall m :: k < m < |lines| ==> !Puts(lines[m], name, now, parseDate))
            || (name !in jar && forall m :: 0 <= m < |lines| ==> !Puts(lines[m], name, now, parseDate))
    decreases |lines|
  {
    hide ChangeOf;
    if lines != [] {
      var n := |lines| - 1;
      GoneIff(jar, lines[..n], name, now, parseDate);
      assert forall k :: 0 <= k < n ==> lines[..n][k] == lines[k];
    }
  }

  /** A name the jar no longer holds is in neither store, as far as each was written. */
  lemma DeletedIsNowhere(s: State, a: Absorbed, name: string, parseDate: string -> Option<int>)
    requires name !in ApplyLines(s.jar, a.lines, a.now, parseDate)
    ensures var t := Absorb(s, a, parseDate);
            && name !in t.jar
            && (a.tabOk ==> t.tab.Some? && name !in t.tab.value)
            && (a.tabOk && a.diskOk ==> t.disk.Some? && name !in t.disk.value)
            && (!(a.tabOk && a.diskOk) ==> t.disk == s.disk)
  {
  }

  /**
   A refused write, whatever was absorbed: the next page opens what the stores still hold. After a refused
   disk write that is the session cookies of now under every persistent one of before, so a name deleted
   now comes back exactly when the old disk still has it.
   */
  lemma RefusedWriteBringsBackTheOld(s: State, a: Absorbed, later: int, name: string, parseDate: string -> Option<int>)
    requires !(a.tabOk && a.diskOk)
    ensures var t := Absorb(s, a, parseDate);
            var stale := if s.disk.Some? then Live(s.disk.value, later) else map[];
            var next := Open(t.tab, t.disk, later);
            && (!a.tabOk ==> next == Open(s.tab, s.disk, later))
            && (a.tabOk ==> (name in next <==> name in stale || (name in t.jar && !Persistent(t.jar[name]))))
            && (a.tabOk && name in stale ==> next[name] == stale[name])
            && (a.tabOk && name in next && name !in stale ==> next[name] == t.jar[name])
            && (a.tabOk && name !in t.jar ==> (name in next <==> name in stale))
  {
    hide ApplyLines;
  }

  /** An accepted Put is live, and in the one store its lifetime asks for. */
  lemma PutIsStoredByLifetime(s: State, a: Absorbed, name: string, rec: Rec, parseDate: string -> Option<int>)
    requires a.lines != [] && ChangeOf(a.lines[|a.lines| - 1], a.now, parseDate) == Put(name, rec)
    requires a.tabOk && a.diskOk && a.now >= 0
    ensures var t := Absorb(s, a, parseDate);
            && name in t.jar && t.jar[name] == rec && !Expired(rec, a.now)
            && (rec.expires.Session? ==> name in t.tab.value && name !in t.disk.value)
            && (!rec.expires.Session? ==> name in t.disk.value && name !in t.tab.value)
  {
    var pieces := Split(a.lines[|a.lines| - 1], ';');
    LifetimesLieAhead(pieces[1..], a.now, parseDate);
  }

  /** Every lifetime a line sets lies ahead of the clock, so it is never zero and never already over. */
  lemma {:induction false} LifetimesLieAhead(attrs: seq<string>, now: int, parseDate: string -> Option<int>)
    ensures LastUntil(attrs, now, parseDate).At? ==> LastUntil(attrs, now, parseDate).ms > now
  {
    if attrs != [] {
      LifetimesLieAhead(attrs[..|attrs| - 1], now, parseDate);
      EffectLiesAhead(attrs[|attrs| - 1], now, parseDate);
      hide EffectOf;
    }
  }

  lemma EffectLiesAhead(attr: string, now: int, parseDate: string -> Option<int>)
    ensures var e := EffectOf(attr, now, parseDate); e.Until? && e.expires.At? ==> e.expires.ms > now
  {
    hide Pow2, ParseInt, Lower, Trim;
  }

  /** The overflow is reachable: a Max-Age of 2^1024 seconds is endless here and a session cookie once stored. */
  lemma EnormousMaxAgeIsForgotten(jar: Saved, name: string, value: string, now: int, later: int)
    ensures AfterSeconds(Pow2(1024), now) == Endless
    ensures var s := Save(State(jar[name := Rec(value, Endless)], None, None), true, true);
            && name in Live(s.jar, later) && s.jar[name].expires == Endless
            && name in Open(None, s.disk, later) && Open(None, s.disk, later)[name].expires == Session
  {
  }

  // ----- The object -----------------------------------------------------------------------------

  /** One of the browser's stores, as this jar's key sees it; None is nothing, or nothing readable. */
  class Store {
    var saved: Option<Saved>

    constructor (saved: Option<Saved>)
      ensures this.saved == saved
    {
      this.saved := saved;
    }
  }

  class Jar {
    const parseDate: string -> Option<int>
    const tab: Store
    const disk: Store
    var jar: Saved

    function Now(): State
      reads this, tab, disk
    {
      State(jar, tab.saved, disk.saved)
    }

    /** Session storage first, so a name in both reads as local storage has it. */
    constructor (tab: Store, disk: Store, now: int, parseDate: string -> Option<int>)
      ensures this.tab == tab && this.disk == disk && this.parseDate == parseDate
      ensures jar == Open(tab.saved, disk.saved, now)
    {
      this.tab, this.disk, this.parseDate := tab, disk, parseDate;
      jar := Load(Load(map[], tab.saved, now), disk.saved, now);
    }

    /** What the Cookie header is made of; None when nothing is live. */
    method Header(now: int) returns (live: Option<Saved>)
      ensures live == if Live(jar, now) == map[] then None else Some(Live(jar, now))
      ensures forall n :: live.Some? && n in live.value <==> n in jar && StillGood(jar[n], now)
      ensures live.Some? ==> live.value != map[] && forall n :: n in live.value ==> live.value[n] == jar[n]
    {
      var l := Live(jar, now);
      assert forall n :: n in l <==> n in jar && StillGood(jar[n], now);
      live := if l == map[] then None else Some(l);
    }

    method SaveAll(tabOk: bool, diskOk: bool)
      requires tab != disk
      modifies tab, disk
      ensures Now() == Save(old(Now()), tabOk, diskOk)
    {
      var session, persistent := TabPart(jar), DiskPart(jar);
      if !tabOk { return; }
      tab.saved := Some(session);
      if !diskOk { return; }
      disk.saved := Some(persistent);
    }

    method AbsorbLines(lines: seq<string>, now: int, tabOk: bool, diskOk: bool)
      requires tab != disk
      modifies this, tab, disk
      ensures Now() == Absorb(old(Now()), Absorbed(lines, now, tabOk, diskOk), parseDate)
    {
      for i := 0 to |lines|
        invariant jar == ApplyLines(old(jar), lines[..i], now, parseDate)
        invariant tab.saved == old(tab.saved) && disk.saved == old(disk.saved)
      {
        assert lines[..i + 1][..i] == lines[..i] && lines[..i + 1][i] == lines[i];
        AbsorbLine(lines[i], now);
      }
      assert lines[..|lines|] == lines;
      SaveAll(tabOk, diskOk);
    }

    method AbsorbLine(line: string, now: int)
      modifies this`jar
      ensures jar == Apply(old(jar), ChangeOf(line, now, parseDate))
    {
      hide Split, IndexOf, Trim, AnyEnds, LastUntil;
      var pieces := Split(line, ';');
      var eq := IndexOf(pieces[0], '=');
      if eq == 0 || eq == |pieces[0]| { return; }
      var name, value := Trim(pieces[0][..eq]), Trim(pieces[0][eq + 1..]);
      var expires, deleted := Lifetime(pieces[1..], now, parseDate);
      if deleted || value == "" {
        jar := jar - {name};
      } else {
        jar := jar[name := Rec(value, expires)];
      }
    }
  }
}
