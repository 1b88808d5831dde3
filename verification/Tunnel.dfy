/**
 The multiplexer of bootstrap/v1/tunnel.js: frames of many requests and sockets share one channel. A fetch
 is a promise, so only its first outcome counts; what JSON.parse makes of a head is a parameter.
 */
module Tunnel {
  import opened Base
  import opened Bytes
  import opened Text

  // ----- Frames ---------------------------------------------------------------------------------

  const RESPONSE: byte := 2
  const BODY: byte := 3
  const END: byte := 4
  const WS_TEXT: byte := 6
  const WS_CLOSE: byte := 7
  const WS_OPENED: byte := 8

  datatype Frame = Frame(kind: byte, id: nat, payload: seq<byte>)

  function FrameBytes(kind: byte, id: nat, payload: seq<byte>): seq<byte> {
    [kind] + Word(id) + payload
  }

  function ParseFrame(b: seq<byte>): Option<Frame> {
    if |b| < 5 then None else Some(Frame(b[0], ReadWord(b[1..5]), b[5..]))
  }

  method EncodeFrame(kind: byte, id: nat, payload: seq<byte>) returns (frame: seq<byte>)
    ensures frame == FrameBytes(kind, id, payload)
  {
    var out := new byte[5 + |payload|](_ => 0);
    out[0] := kind;
    assert out[..1] == [kind];
    Blit(out, Word(id), 1);
    Blit(out, payload, 5);
    assert out[..] == out[..5 + |payload|];
    frame := out[..];
  }

  /** A frame reads back whole; its id exactly when it fits the 32 bits it is carried in. */
  lemma FrameReadsBack(kind: byte, id: nat, payload: seq<byte>)
    ensures ParseFrame(FrameBytes(kind, id, payload)) == Some(Frame(kind, id % WORD, payload))
    ensures ParseFrame(FrameBytes(kind, id, payload)).value.id == id <==> id < WORD
  {
    var b := FrameBytes(kind, id, payload);
    WordReadsBack(id, []);
    hide Word, ReadWord;
    assert b[1..5] == Word(id) + [] && b[5..] == payload;
  }

  /** On the wire a frame is its kind, its id most significant byte first, and its payload. */
  lemma FrameLayout(kind: byte, id: nat, payload: seq<byte>)
    requires id < WORD
    ensures var b := FrameBytes(kind, id, payload);
            && |b| == 5 + |payload| && b[0] == kind && b[5..] == payload
            && BigEndian(b[1..5]) == id
  {
    WordIsBigEndian(id);
    hide Word, BigEndian;
    assert FrameBytes(kind, id, payload)[1..5] == Word(id);
  }

  function HeadBytes(json: seq<byte>, body: seq<byte>): seq<byte> {
    Word(|json|) + json + body
  }

  /** The JSON part of a response payload: `subarray` stops at the payload's end. */
  function HeadPart(payload: seq<byte>): seq<byte>
    requires |payload| >= 4
  {
    var n := ReadWord(payload);
    if 4 + n <= |payload| then payload[4..4 + n] else payload[4..]
  }

  method EncodeHead(json: seq<byte>, body: seq<byte>) returns (b: seq<byte>)
    ensures b == HeadBytes(json, body)
  {
    var out := new byte[4 + |json| + |body|](_ => 0);
    assert out[..0] == [];
    Blit(out, Word(|json|), 0);
    Blit(out, json, 4);
    Blit(out, body, 4 + |json|);
    assert out[..] == out[..4 + |json| + |body|];
    b := out[..];
  }

  lemma HeadReadsBack(json: seq<byte>, body: seq<byte>)
    requires |json| < WORD
    ensures HeadPart(HeadBytes(json, body)) == json
  {
  }

  lemma HeadLayout(json: seq<byte>, body: seq<byte>)
    requires |json| < WORD
    ensures var b := HeadBytes(json, body);
            && |b| == 4 + |json| + |body| && b[4..4 + |json|] == json && b[4 + |json|..] == body
            && BigEndian(b[..4]) == |json|
  {
    WordIsBigEndian(|json|);
    hide Word, BigEndian;
    assert HeadBytes(json, body)[..4] == Word(|json|);
  }

  // ----- Requests -------------------------------------------------------------------------------

  /** A header's value as JSON has it. Plain is a number, a boolean, null or an object. */
  datatype Value = Text(text: string) | List(items: seq<Value>) | Plain(truthy: bool)

  datatype Head = Head(status: Option<int>, headers: seq<(string, Value)>)
  datatype Json = Malformed | Null | Parsed(head: Head)
  datatype Response = Response(status: int, body: Option<seq<byte>>, headers: seq<(string, Value)>)
  datatype Outcome = Resolved(response: Response) | Rejected(why: string)
  datatype Waiter = Waiter(head: Option<Head>, chunks: seq<seq<byte>>)

  function Flatten(chunks: seq<seq<byte>>): seq<byte> {
    if chunks == [] then [] else chunks[0] + Flatten(chunks[1..])
  }

  lemma {:induction false} FlattenAppend(a: seq<seq<byte>>, b: seq<byte>)
    ensures Flatten(a + [b]) == Flatten(a) + b
  {
    if a == [] {
      assert [b][1..] == [] && Flatten([b]) == b;
    } else {
      assert (a + [b])[1..] == a[1..] + [b];
      FlattenAppend(a[1..], b);
    }
  }

  lemma {:induction false} FlattenGrows(chunks: seq<seq<byte>>, k: nat)
    requires k <= |chunks|
    ensures |Flatten(chunks[..k])| <= |Flatten(chunks)|
    ensures k < |chunks| ==> |Flatten(chunks[..k])| + |chunks[k]| <= |Flatten(chunks)|
    decreases |chunks| - k
  {
    if k < |chunks| {
      assert chunks[..k + 1] == chunks[..k] + [chunks[k]];
      FlattenAppend(chunks[..k], chunks[k]);
      FlattenGrows(chunks, k + 1);
    } else {
      assert chunks[..k] == chunks;
    }
  }

  /** The two loops over the chunks: measure, then copy each behind the last. */
  method Assemble(chunks: seq<seq<byte>>) returns (body: seq<byte>)
    ensures body == Flatten(chunks)
  {
    var total := 0;
    for k := 0 to |chunks|
      invariant total == |Flatten(chunks[..k])|
    {
      assert chunks[..k + 1] == chunks[..k] + [chunks[k]];
      FlattenAppend(chunks[..k], chunks[k]);
      total := total + |chunks[k]|;
    }
    assert chunks[..|chunks|] == chunks;
    var out := new byte[total](_ => 0);
    var offset := 0;
    for k := 0 to |chunks|
      invariant offset == |Flatten(chunks[..k])| <= out.Length == |Flatten(chunks)|
      invariant out[..offset] == Flatten(chunks[..k])
    {
      FlattenGrows(chunks, k);
      assert chunks[..k + 1] == chunks[..k] + [chunks[k]];
      FlattenAppend(chunks[..k], chunks[k]);
      Blit(out, chunks[k], offset);
      offset := offset + |chunks[k]|;
    }
    assert out[..] == out[..offset];
    body := out[..];
  }

  function HeadOf(w: Waiter): Head {
    GetOr(w.head, Head(Some(502), []))
  }

  predicate Bodyless(status: Option<int>) {
    status.Some? && (status.value == 204 || status.value == 304 || status.value < 200)
  }

  /** What the Response constructor makes of a status: 200 when absent, 16 bits otherwise. */
  function WireStatus(status: Option<int>): int {
    if status.None? then 200 else status.value % 0x1_0000
  }

  /** The constructor refuses a status outside 200..599, and a body on 204, 205 or 304. */
  predicate Constructible(status: Option<int>) {
    && 200 <= WireStatus(status) <= 599
    && (Bodyless(status) || WireStatus(status) !in {204, 205, 304})
  }

  predicate IsCookie(header: (string, Value)) {
    Lower(header.0) == "set-cookie"
  }

  /** The lines the jar goes through: a list's items, or the value alone. */
  function LinesOf(v: Value): seq<Value> {
    if v.List? then v.items else [v]
  }

  /** The jar skips a falsy line and splits a string; anything else throws. */
  predicate Splits(line: Value) {
    line.Text? || line == Plain(false)
  }

  predicate Absorbs(headers: seq<(string, Value)>) {
    forall h, l :: h in headers && IsCookie(h) && l in LinesOf(h.1) ==> Splits(l)
  }

  function Visible(headers: seq<(string, Value)>): seq<(string, Value)> {
    if headers == [] then [] else (if IsCookie(headers[0]) then [] else [headers[0]]) + Visible(headers[1..])
  }

  /** @p kept is @p headers without the Set-Cookie ones: @p at are the places of the others, in order. */
  ghost predicate Picks(headers: seq<(string, Value)>, kept: seq<(string, Value)>, at: seq<nat>) {
    && |at| == |kept| && (forall i, j :: 0 <= i < j < |at| ==> at[i] < at[j])
    && (forall i :: 0 <= i < |at| ==> at[i] < |headers| && kept[i] == headers[at[i]])
    && (forall k :: 0 <= k < |headers| ==> (k in at <==> Lower(headers[k].0) != "set-cookie"))
  }

  /** A response shows exactly the headers not named Set-Cookie, in any case, in their order. */
  lemma {:induction false} VisibleIs(headers: seq<(string, Value)>) returns (at: seq<nat>)
    ensures Picks(headers, Visible(headers), at)
  {
    if headers == [] {
      at := [];
    } else {
      hide Picks, Lower;
      var rest := VisibleIs(headers[1..]);
      if Lower(headers[0].0) == "set-cookie" {
        at := OneOn(rest);
        PickedFurtherOn(headers, Visible(headers[1..]), rest);
        assert [] + Visible(headers[1..]) == Visible(headers[1..]);
      } else {
        at := [0] + OneOn(rest);
        FirstPicked(headers, Visible(headers[1..]), rest);
      }
    }
  }

  lemma PickedFurtherOn(headers: seq<(string, Value)>, kept: seq<(string, Value)>, rest: seq<nat>)
    requires headers != [] && Picks(headers[1..], kept, rest) && Lower(headers[0].0) == "set-cookie"
    ensures Picks(headers, kept, OneOn(rest))
  {
    OneOnHolds(rest);
    hide Lower;
    assert forall i :: 0 <= i < |rest| ==> kept[i] == headers[1..][rest[i]] == headers[OneOn(rest)[i]];
    assert forall k :: 1 <= k < |headers| ==> headers[k] == headers[1..][k - 1];
  }

  lemma FirstPicked(headers: seq<(string, Value)>, kept: seq<(string, Value)>, rest: seq<nat>)
    requires headers != [] && Picks(headers[1..], kept, rest) && Lower(headers[0].0) != "set-cookie"
    ensures Picks(headers, [headers[0]] + kept, [0] + OneOn(rest))
  {
    OneOnHolds(rest);
    hide Lower, OneOn;
    var (at, all) := ([0] + OneOn(rest), [headers[0]] + kept);
    assert forall k :: k in at <==> k == 0 || k - 1 in rest;
    assert forall k :: 1 <= k < |headers| ==> headers[k] == headers[1..][k - 1];
    Shifted(rest);
    assert forall i :: 1 <= i < |at| ==> at[i] == rest[i - 1] + 1 && all[i] == kept[i - 1];
  }

  lemma Shifted(rest: seq<nat>)
    ensures |OneOn(rest)| == |rest| && forall i :: 0 <= i < |rest| ==> OneOn(rest)[i] == rest[i] + 1
  {
  }

  /** Every place one further on. */
  function OneOn(at: seq<nat>): seq<nat> {
    seq(|at|, i requires 0 <= i < |at| => at[i] + 1)
  }

  lemma OneOnHolds(at: seq<nat>)
    ensures 0 !in OneOn(at) && forall k :: k in OneOn(at) <==> k - 1 in at
  {
    forall k ensures k in OneOn(at) <==> k - 1 in at {
      if k - 1 in at {
        var i :| 0 <= i < |at| && at[i] == k - 1;
        assert OneOn(at)[i] == k;
      }
    }
  }

  /** The lines that reach the jar, up to the first that throws. */
  function Taken(lines: seq<Value>): seq<string> {
    if lines == [] || !Splits(lines[0]) then []
    else (if lines[0].Text? then [lines[0].text] else []) + Taken(lines[1..])
  }

  function SetCookies(headers: seq<(string, Value)>): seq<string> {
    if headers == [] then []
    else if !IsCookie(headers[0]) then SetCookies(headers[1..])
    else Taken(LinesOf(headers[0].1)) + if Absorbs([headers[0]]) then SetCookies(headers[1..]) else []
  }

  lemma AbsorbsOneMore(headers: seq<(string, Value)>, k: nat)
    requires k < |headers|
    ensures Absorbs(headers[..k + 1]) <==> Absorbs(headers[..k]) && Absorbs([headers[k]])
    ensures Absorbs(headers) ==> Absorbs([headers[k]])
  {
    assert headers[..k + 1] == headers[..k] + [headers[k]] && headers[k] in headers;
  }

  lemma OneHeaderAbsorbs(h: (string, Value))
    ensures Absorbs([h]) <==> (IsCookie(h) ==> forall l :: l in LinesOf(h.1) ==> Splits(l))
    ensures Absorbs([])
  {
    assert h in [h];
  }

  /** A Response can be built from the head, and its cookies go into the jar. */
  predicate Buildable(head: Head) {
    Constructible(head.status) && Absorbs(head.headers)
  }

  /**
   Which heads those are: no status or one that the constructor's sixteen bits leave between 200 and 599, other
   than 205 (or a 204 or 304 spelled with more bits), and every Set-Cookie a string, something falsy, or a list of these.
   */
  lemma BuildableIff(head: Head)
    ensures Buildable(head) <==>
            && (head.status.Some? ==>
                  && 200 <= head.status.value % 0x1_0000 <= 599
                  && (head.status.value % 0x1_0000 in {204, 205, 304} ==>
                        head.status.value in {204, 304} || head.status.value < 200))
            && forall k :: 0 <= k < |head.headers| && Lower(head.headers[k].0) == "set-cookie" ==> AllTake(head.headers[k].1)
  {
    AbsorbsByPlace(head.headers);
    hide Lower, Absorbs, AllTake;
  }

  lemma AbsorbsByPlace(headers: seq<(string, Value)>)
    ensures Absorbs(headers) <==> forall k :: 0 <= k < |headers| && Lower(headers[k].0) == "set-cookie" ==> AllTake(headers[k].1)
  {
    hide Lower, Splits, LinesOf;
    if Absorbs(headers) {
      forall k | 0 <= k < |headers| && Lower(headers[k].0) == "set-cookie" ensures AllTake(headers[k].1) {
        LinesSplitIff(headers[k].1);
        assert headers[k] in headers && IsCookie(headers[k]);
      }
    } else {
      var h, l :| h in headers && IsCookie(h) && l in LinesOf(h.1) && !Splits(l);
      LinesSplitIff(h.1);
    }
  }

  /** A string, something falsy, or a list of these. */
  predicate AllTake(v: Value) {
    if v.List? then forall l :: l in v.items ==> l.Text? || l == Plain(false) else v.Text? || v == Plain(false)
  }

  lemma LinesSplitIff(v: Value)
    ensures (forall l :: l in LinesOf(v) ==> Splits(l)) <==> AllTake(v)
  {
    if v.List? {
      assert LinesOf(v) == v.items;
    } else {
      assert LinesOf(v) == [v] && v in LinesOf(v);
    }
  }

  /** `_buildResponse`; None is an exception, the constructor's or the jar's. */
  function Build(w: Waiter): Option<Response> {
    var h := HeadOf(w);
    if Buildable(h)
    then Some(Response(WireStatus(h.status), if Bodyless(h.status) then None else Some(Flatten(w.chunks)), Visible(h.headers)))
    else None
  }

  // ----- The tunnel -----------------------------------------------------------------------------

  /** readyState 0 connecting, 1 open, 2 closing, 3 closed; @p closes counts onclose calls. */
  datatype Socket = Socket(ready: nat, received: seq<seq<byte>>, closes: nat)

  /**
   @p fetches: every request id handed out; @p stuck: those whose END found an unbuildable response;
   @p answered: those that saw a RESPONSE with readable JSON, be it null.
   */
  datatype State = State(nextId: nat, fetches: set<nat>, pending: map<nat, Waiter>, timers: set<nat>,
                         outcomes: map<nat, Outcome>, stuck: set<nat>, answered: set<nat>,
                         sockets: map<nat, Socket>, open: set<nat>, cookies: seq<string>)

  const FRESH := State(1, {}, map[], {}, map[], {}, {}, map[], {}, [])

  datatype Event =
    | Fetch(sent: bool)
    | OpenSocket
    | Message(bytes: seq<byte>)
    | Timeout(id: nat)
    | CloseSocket(id: nat)
    | Teardown(why: string)

  /** A promise keeps its first outcome. */
  function Settle(outcomes: map<nat, Outcome>, id: nat, o: Outcome): map<nat, Outcome> {
    if id in outcomes then outcomes else outcomes[id := o]
  }

  function OnFetch(s: State, sent: bool): State {
    var id := s.nextId;
    var t := s.(nextId := id + 1, fetches := s.fetches + {id});
    if sent then t.(pending := s.pending[id := Waiter(None, [])], timers := s.timers + {id})
    else t.(pending := s.pending - {id}, timers := s.timers - {id},
            outcomes := Settle(s.outcomes, id, Rejected("the connection to your machine is not open")))
  }

  function OnOpenSocket(s: State): State {
    s.(nextId := s.nextId + 1, sockets := s.sockets[s.nextId := Socket(0, [], 0)], open := s.open + {s.nextId})
  }

  /** `_closed`: once only, and the socket leaves the table. */
  function Closed(s: State, id: nat): (r: State)
    requires id in s.sockets
    ensures r == s.(sockets := r.sockets, open := r.open)
  {
    var k := s.sockets[id];
    if k.ready == 3 then s
    else s.(sockets := s.sockets[id := k.(ready := 3, closes := k.closes + 1)], open := s.open - {id})
  }

  function OnResponse(parse: seq<byte> -> Json, s: State, id: nat, payload: seq<byte>): State {
    if id !in s.pending || |payload| < 4 then s
    else
      var j := parse(HeadPart(payload));
      if j.Malformed? then s
      else s.(pending := s.pending[id := s.pending[id].(head := if j.Parsed? then Some(j.head) else None)],
              timers := s.timers - {id}, answered := s.answered + {id})
  }

  function OnEnd(s: State, id: nat): State {
    if id !in s.pending then s
    else
      var w := s.pending[id];
      var t := s.(pending := s.pending - {id}, cookies := s.cookies + SetCookies(HeadOf(w).headers));
      var r := Build(w);
      if r.Some? then t.(outcomes := Settle(s.outcomes, id, Resolved(r.value))) else t.(stuck := s.stuck + {id})
  }

  function OnFrame(parse: seq<byte> -> Json, s: State, f: Frame): State {
    if f.kind == RESPONSE then OnResponse(parse, s, f.id, f.payload)
    else if f.kind == BODY then
      if f.id in s.pending
      then s.(pending := s.pending[f.id := s.pending[f.id].(chunks := s.pending[f.id].chunks + [f.payload])]) else s
    else if f.kind == END then OnEnd(s, f.id)
    else if f.id !in s.open || f.id !in s.sockets then s
    else if f.kind == WS_OPENED then s.(sockets := s.sockets[f.id := s.sockets[f.id].(ready := 1)])
    else if f.kind == WS_TEXT then
      s.(sockets := s.sockets[f.id := s.sockets[f.id].(received := s.sockets[f.id].received + [f.payload])])
    else if f.kind == WS_CLOSE then Closed(s, f.id)
    else s
  }

  function OnTimeout(s: State, id: nat): State {
    if id !in s.timers then s
    else s.(timers := s.timers - {id}, pending := s.pending - {id},
            outcomes := Settle(s.outcomes, id, Rejected("the host did not answer")))
  }

  function OnCloseSocket(s: State, id: nat): State {
    if id !in s.sockets || s.sockets[id].ready == 3 then s
    else s.(sockets := s.sockets[id := s.sockets[id].(ready := 2)])
  }

  function OnTeardown(s: State, why: string): State {
    s.(open := {}, pending := map[],
       sockets := map id | id in s.sockets ::
         if id in s.open && s.sockets[id].ready != 3 then s.sockets[id].(ready := 3, closes := s.sockets[id].closes + 1)
         else s.sockets[id],
       outcomes := map id | id in s.outcomes.Keys + s.pending.Keys :: if id in s.outcomes then s.outcomes[id] else Rejected(why))
  }

  function Step(parse: seq<byte> -> Json, s: State, e: Event): State {
    match e
    case Fetch(sent) => OnFetch(s, sent)
    case OpenSocket => OnOpenSocket(s)
    case Message(bytes) => var f := ParseFrame(bytes); if f.None? then s else OnFrame(parse, s, f.value)
    case Timeout(id) => OnTimeout(s, id)
    case CloseSocket(id) => OnCloseSocket(s, id)
    case Teardown(why) => OnTeardown(s, why)
  }

  function Run(parse: seq<byte> -> Json, s: State, es: seq<Event>): State
    decreases |es|
  {
    if es == [] then s else Run(parse, Step(parse, s, es[0]), es[1..])
  }

  // ----- What every step keeps ------------------------------------------------------------------

  /**
   A request waits, is settled or is stuck, one of the three. A waiting one has its timer exactly until it is
   answered.
   */
  ghost predicate RequestsInv(nextId: nat, fetches: set<nat>, pending: map<nat, Waiter>, timers: set<nat>,
                              outcomes: map<nat, Outcome>, stuck: set<nat>, answered: set<nat>) {
    && (forall id :: id in fetches ==> id < nextId)
    && pending.Keys <= fetches && outcomes.Keys <= fetches && stuck <= fetches && timers <= fetches
    && pending.Keys !! outcomes.Keys && pending.Keys !! stuck && outcomes.Keys !! stuck
    && fetches == pending.Keys + outcomes.Keys + stuck
    && answered <= fetches && timers !! answered && stuck <= answered
    && (forall id :: id in pending ==> (id in timers <==> id !in answered))
    && (forall id :: id in pending && pending[id].head.Some? ==> id in answered)
  }

  /** A socket is in the table until it closes, which it does once, and shares its id with no request. */
  ghost predicate SocketsInv(nextId: nat, fetches: set<nat>, sockets: map<nat, Socket>, open: set<nat>) {
    && (forall id :: id in sockets ==> id < nextId && id !in fetches)
    && open <= sockets.Keys
    && (forall id :: id in sockets ==>
          (id in open <==> sockets[id].ready != 3) && sockets[id].closes == if id in open then 0 else 1)
  }

  ghost predicate Inv(s: State) {
    && RequestsInv(s.nextId, s.fetches, s.pending, s.timers, s.outcomes, s.stuck, s.answered)
    && SocketsInv(s.nextId, s.fetches, s.sockets, s.open)
  }

  lemma ResponseKeepsInv(parse: seq<byte> -> Json, s: State, id: nat, payload: seq<byte>)
    requires Inv(s)
    ensures Inv(OnResponse(parse, s, id, payload))
  {
    hide SocketsInv, HeadPart;
  }

  lemma BodyKeepsInv(s: State, id: nat, w: Waiter)
    requires Inv(s) && id in s.pending && w.head == s.pending[id].head
    ensures Inv(s.(pending := s.pending[id := w]))
  {
    hide SocketsInv;
  }

  lemma EndKeepsInv(s: State, id: nat)
    requires Inv(s)
    ensures Inv(OnEnd(s, id))
  {
    if id in s.pending { UnbuildableHasHead(s.pending[id]); }
    hide SocketsInv, Build, SetCookies;
  }

  /** Without a head the response is a plain 502. */
  lemma UnbuildableHasHead(w: Waiter)
    ensures Build(w).None? ==> w.head.Some?
  {
  }

  lemma SocketFrameKeepsInv(s: State, id: nat, k: Socket)
    requires Inv(s) && id in s.open && id in s.sockets && k.closes == 0 && k.ready != 3
    ensures Inv(s.(sockets := s.sockets[id := k])) && Inv(Closed(s, id))
  {
    hide RequestsInv;
  }

  lemma FrameKeepsInv(parse: seq<byte> -> Json, s: State, f: Frame)
    requires Inv(s)
    ensures Inv(OnFrame(parse, s, f))
  {
    ResponseKeepsInv(parse, s, f.id, f.payload);
    EndKeepsInv(s, f.id);
    if f.id in s.pending {
      BodyKeepsInv(s, f.id, s.pending[f.id].(chunks := s.pending[f.id].chunks + [f.payload]));
    }
    if f.id in s.open && f.id in s.sockets {
      SocketFrameKeepsInv(s, f.id, s.sockets[f.id].(ready := 1));
      OpenSocketIsLive(s, f.id);
      SocketFrameKeepsInv(s, f.id, s.sockets[f.id].(received := s.sockets[f.id].received + [f.payload]));
    }
    hide Inv, OnResponse, OnEnd, Closed;
  }

  lemma OpenSocketIsLive(s: State, id: nat)
    requires Inv(s) && id in s.open
    ensures id in s.sockets && s.sockets[id].ready != 3 && s.sockets[id].closes == 0
  {
    hide RequestsInv;
  }

  lemma StepKeepsInv(parse: seq<byte> -> Json, s: State, e: Event)
    requires Inv(s)
    ensures Inv(Step(parse, s, e))
  {
    hide Inv, OnFrame, OnFetch, OnOpenSocket, OnCloseSocket, OnTimeout, OnTeardown;
    match e
    case Message(bytes) => if ParseFrame(bytes).Some? { FrameKeepsInv(parse, s, ParseFrame(bytes).value); }
    case Fetch(sent) => FetchKeepsInv(s, sent);
    case OpenSocket => SocketsKeepInv(s, 0);
    case CloseSocket(id) => SocketsKeepInv(s, id);
    case Timeout(id) => TimeoutKeepsInv(s, id);
    case Teardown(why) => TeardownKeepsInv(s, why);
  }

  lemma FetchKeepsInv(s: State, sent: bool)
    requires Inv(s)
    ensures Inv(OnFetch(s, sent))
  {
  }

  lemma SocketsKeepInv(s: State, id: nat)
    requires Inv(s)
    ensures Inv(OnOpenSocket(s)) && Inv(OnCloseSocket(s, id))
  {
  }

  lemma TimeoutKeepsInv(s: State, id: nat)
    requires Inv(s)
    ensures Inv(OnTimeout(s, id))
  {
  }

  lemma TeardownKeepsInv(s: State, why: string)
    requires Inv(s)
    ensures Inv(OnTeardown(s, why))
  {
  }

  lemma {:induction false} RunKeepsInv(parse: seq<byte> -> Json, s: State, es: seq<Event>)
    requires Inv(s)
    ensures Inv(Run(parse, s, es))
    decreases |es|
  {
    if es != [] {
      hide Inv;
      StepKeepsInv(parse, s, es[0]);
      RunKeepsInv(parse, Step(parse, s, es[0]), es[1..]);
    }
  }

  /** Ids are never shared: a request's is never a socket's, and an id handed out was never handed out before. */
  lemma IdsAreNeverShared(parse: seq<byte> -> Json, es: seq<Event>)
    ensures var s := Run(parse, FRESH, es);
            s.fetches !! s.sockets.Keys && s.nextId !in s.fetches && s.nextId !in s.sockets
  {
    RunKeepsInv(parse, FRESH, es);
  }

  lemma StepKeepsOutcome(parse: seq<byte> -> Json, s: State, e: Event, id: nat)
    requires Inv(s)
    ensures id in s.outcomes ==> id in Step(parse, s, e).outcomes && Step(parse, s, e).outcomes[id] == s.outcomes[id]
    ensures id in s.stuck ==> id in Step(parse, s, e).stuck && id !in Step(parse, s, e).outcomes
  {
  }

  /** An outcome, once there, is never replaced; a stuck request stays stuck. */
  lemma {:induction false} FirstOutcomeStands(parse: seq<byte> -> Json, s: State, es: seq<Event>, id: nat)
    requires Inv(s)
    ensures id in s.outcomes ==> id in Run(parse, s, es).outcomes && Run(parse, s, es).outcomes[id] == s.outcomes[id]
    ensures id in s.stuck ==> id in Run(parse, s, es).stuck && id !in Run(parse, s, es).outcomes
    decreases |es|
  {
    if es != [] {
      StepKeepsInv(parse, s, es[0]);
      StepKeepsOutcome(parse, s, es[0], id);
      hide Inv, Step;
      FirstOutcomeStands(parse, Step(parse, s, es[0]), es[1..], id);
    }
  }

  /**
   Teardown empties both tables and closes every socket once; every request ever made is then settled,
   except those whose response could not be built.
   */
  lemma TeardownSettlesAll(parse: seq<byte> -> Json, es: seq<Event>, why: string)
    ensures var s := Step(parse, Run(parse, FRESH, es), Teardown(why));
            && s.pending == map[] && s.open == {}
            && s.fetches == s.outcomes.Keys + s.stuck && s.outcomes.Keys !! s.stuck
            && forall id :: id in s.sockets ==> s.sockets[id].ready == 3 && s.sockets[id].closes == 1
  {
    RunKeepsInv(parse, FRESH, es);
    StepKeepsInv(parse, Run(parse, FRESH, es), Teardown(why));
  }

  /** A timeout settles a request that still waits exactly when nothing answered it before; otherwise it is lost. */
  lemma TimeoutSettlesIff(parse: seq<byte> -> Json, es: seq<Event>, id: nat)
    requires id in Run(parse, FRESH, es).pending
    ensures var s := Run(parse, FRESH, es);
            var t := Step(parse, s, Timeout(id));
            && (id in t.outcomes <==> id !in s.answered) && (id in s.answered ==> t == s)
  {
    RunKeepsInv(parse, FRESH, es);
  }

  // ----- Interleaving ---------------------------------------------------------------------------

  /** One request as seen alone. */
  datatype View = View(waiter: Option<Waiter>, outcome: Option<Outcome>, stuck: bool, timer: bool, answered: bool)

  function ViewOf(s: State, id: nat): View {
    View(if id in s.pending then Some(s.pending[id]) else None, if id in s.outcomes then Some(s.outcomes[id]) else None,
         id in s.stuck, id in s.timers, id in s.answered)
  }

  /** The events that concern request @p id: its own three frame kinds, its timer, and the channel's end. */
  predicate Concerns(e: Event, id: nat) {
    match e
    case Message(bytes) => |bytes| >= 5 && ReadWord(bytes[1..5]) == id && bytes[0] in {RESPONSE, BODY, END}
    case Timeout(t) => t == id
    case Teardown(_) => true
    case _ => false
  }

  function Own(es: seq<Event>, id: nat): seq<Event> {
    if es == [] then [] else (if Concerns(es[0], id) then [es[0]] else []) + Own(es[1..], id)
  }

  function Keep(o: Option<Outcome>, new_: Outcome): Option<Outcome> {
    if o.Some? then o else Some(new_)
  }

  /** One request's own automaton. */
  function Alone(parse: seq<byte> -> Json, v: View, e: Event): View {
    match e
    case Timeout(_) => if v.timer then v.(waiter := None, timer := false, outcome := Keep(v.outcome, Rejected("the host did not answer"))) else v
    case Teardown(why) => if v.waiter.Some? then v.(waiter := None, outcome := Keep(v.outcome, Rejected(why))) else v
    case Message(bytes) =>
      if |bytes| < 5 || v.waiter.None? then v
      else
        var (w, payload) := (v.waiter.value, bytes[5..]);
        if bytes[0] == RESPONSE then
          if |payload| < 4 || parse(HeadPart(payload)).Malformed? then v
          else
            var j := parse(HeadPart(payload));
            v.(waiter := Some(w.(head := if j.Parsed? then Some(j.head) else None)), timer := false, answered := true)
        else if bytes[0] == BODY then v.(waiter := Some(w.(chunks := w.chunks + [payload])))
        else if Build(w).Some? then v.(waiter := None, outcome := Keep(v.outcome, Resolved(Build(w).value)))
        else v.(waiter := None, stuck := true)
    case _ => v
  }

  function RunAlone(parse: seq<byte> -> Json, v: View, es: seq<Event>): View
    decreases |es|
  {
    if es == [] then v else RunAlone(parse, Alone(parse, v, es[0]), es[1..])
  }

  lemma StepSeenAlone(parse: seq<byte> -> Json, s: State, e: Event, id: nat)
    requires id < s.nextId
    ensures ViewOf(Step(parse, s, e), id) == (if Concerns(e, id) then Alone(parse, ViewOf(s, id), e) else ViewOf(s, id))
    ensures id < Step(parse, s, e).nextId
  {
    hide Build, HeadPart, SetCookies, ReadWord, OnFrame, OnFetch, OnOpenSocket, OnCloseSocket, OnTimeout, OnTeardown;
    match e
    case Message(bytes) => if |bytes| >= 5 { FrameSeenAlone(parse, s, bytes, id); }
    case Teardown(why) => TeardownSeenAlone(parse, s, why, id);
    case Timeout(t) => TimeoutSeenAlone(parse, s, t, id);
    case _ => OthersSeenAlone(s, e, id);
  }

  lemma TeardownSeenAlone(parse: seq<byte> -> Json, s: State, why: string, id: nat)
    ensures ViewOf(OnTeardown(s, why), id) == Alone(parse, ViewOf(s, id), Teardown(why))
    ensures OnTeardown(s, why).nextId == s.nextId
  {
  }

  lemma TimeoutSeenAlone(parse: seq<byte> -> Json, s: State, t: nat, id: nat)
    ensures ViewOf(OnTimeout(s, t), id) == if t == id then Alone(parse, ViewOf(s, id), Timeout(t)) else ViewOf(s, id)
    ensures OnTimeout(s, t).nextId == s.nextId
  {
  }

  lemma OthersSeenAlone(s: State, e: Event, id: nat)
    requires id < s.nextId
    ensures e.Fetch? ==> ViewOf(OnFetch(s, e.sent), id) == ViewOf(s, id) && id < OnFetch(s, e.sent).nextId
    ensures ViewOf(OnOpenSocket(s), id) == ViewOf(s, id) && id < OnOpenSocket(s).nextId
    ensures e.CloseSocket? ==> ViewOf(OnCloseSocket(s, e.id), id) == ViewOf(s, id) && OnCloseSocket(s, e.id).nextId == s.nextId
  {
  }

  lemma FrameSeenAlone(parse: seq<byte> -> Json, s: State, bytes: seq<byte>, id: nat)
    requires id < s.nextId && |bytes| >= 5
    ensures var f := ParseFrame(bytes).value;
            && ViewOf(OnFrame(parse, s, f), id)
               == (if Concerns(Message(bytes), id) then Alone(parse, ViewOf(s, id), Message(bytes)) else ViewOf(s, id))
            && OnFrame(parse, s, f).nextId == s.nextId
  {
    hide HeadPart, SetCookies, ReadWord, Build, Closed, OnEnd;
    EndSeenAlone(s, ReadWord(bytes[1..5]), id);
  }

  lemma EndSeenAlone(s: State, f: nat, id: nat)
    ensures OnEnd(s, f).nextId == s.nextId
    ensures var v := ViewOf(s, id);
            ViewOf(OnEnd(s, f), id)
            == if f != id || v.waiter.None? then v
               else if Build(v.waiter.value).Some?
               then v.(waiter := None, outcome := Keep(v.outcome, Resolved(Build(v.waiter.value).value)))
               else v.(waiter := None, stuck := true)
  {
    hide SetCookies, Build;
  }

  /**
   Interleaving: whatever else travels on the channel, a request ends up exactly where its own events,
   in their own order, would have brought it alone.
   */
  lemma {:induction false} RequestSeesOnlyItsOwn(parse: seq<byte> -> Json, s: State, es: seq<Event>, id: nat)
    requires id < s.nextId
    ensures ViewOf(Run(parse, s, es), id) == RunAlone(parse, ViewOf(s, id), Own(es, id))
    decreases |es|
  {
    if es != [] {
      StepSeenAlone(parse, s, es[0], id);
      RequestSeesOnlyItsOwn(parse, Step(parse, s, es[0]), es[1..], id);
      hide Alone, Step, ViewOf, Concerns;
      if Concerns(es[0], id) {
        assert Own(es, id)[0] == es[0] && Own(es, id)[1..] == Own(es[1..], id);
      } else {
        assert Own(es, id) == Own(es[1..], id);
      }
    }
  }

  // ----- What becomes of a request --------------------------------------------------------------

  predicate FrameOf(e: Event, kind: byte, id: nat) {
    e.Message? && |e.bytes| >= 5 && e.bytes[0] == kind && ReadWord(e.bytes[1..5]) == id
  }

  /** A RESPONSE for @p id whose JSON could be read. */
  predicate Answers(parse: seq<byte> -> Json, e: Event, id: nat) {
    FrameOf(e, RESPONSE, id) && |e.bytes| >= 9 && !parse(HeadPart(e.bytes[5..])).Malformed?
  }

  ghost predicate AnsweredIn(parse: seq<byte> -> Json, es: seq<Event>, id: nat) {
    exists e :: e in es && Answers(parse, e, id)
  }

  /** The head the last answer gave; none if it was null. */
  function LastHead(parse: seq<byte> -> Json, es: seq<Event>, id: nat): Option<Head> {
    if es == [] then None
    else
      var e := es[|es| - 1];
      if !Answers(parse, e, id) then LastHead(parse, es[..|es| - 1], id)
      else
        var j := parse(HeadPart(e.bytes[5..]));
        if j.Parsed? then Some(j.head) else None
  }

  /** What ends the wait: the END, the channel's end, or the timeout of a request not answered before it. */
  ghost predicate Closes(parse: seq<byte> -> Json, before: seq<Event>, e: Event, id: nat) {
    FrameOf(e, END, id) || e.Teardown? || (e == Timeout(id) && !AnsweredIn(parse, before, id))
  }

  ghost predicate Waits(parse: seq<byte> -> Json, es: seq<Event>, id: nat) {
    forall k :: 0 <= k < |es| ==> !Closes(parse, es[..k], es[k], id)
  }

  ghost predicate FirstCloses(parse: seq<byte> -> Json, es: seq<Event>, k: nat, id: nat) {
    k < |es| && Waits(parse, es[..k], id) && Closes(parse, es[..k], es[k], id)
  }

  /** The event at @p k is an END on a head no Response can be built from. */
  predicate EndsUnbuildable(parse: seq<byte> -> Json, es: seq<Event>, k: nat, id: nat)
    requires k < |es|
  {
    FrameOf(es[k], END, id) && !Buildable(GetOr(LastHead(parse, es[..k], id), Head(Some(502), [])))
  }

  /** The view @p v is what the events @p es make of a request just sent. */
  ghost predicate Tracked(parse: seq<byte> -> Json, es: seq<Event>, id: nat, v: View) {
    && (Waits(parse, es, id) ==>
          && v.waiter.Some? && v.waiter.value.head == LastHead(parse, es, id) && v.outcome.None? && !v.stuck
          && (v.answered <==> AnsweredIn(parse, es, id)) && v.timer == !v.answered)
    && (!Waits(parse, es, id) ==> v.waiter.None? && (v.stuck ==> !v.timer))
    && (forall k :: FirstCloses(parse, es, k, id) ==>
          && (v.stuck <==> EndsUnbuildable(parse, es, k, id)) && (v.outcome.Some? <==> !v.stuck))
  }

  lemma LongerWaits(parse: seq<byte> -> Json, es: seq<Event>, e: Event, id: nat)
    ensures Waits(parse, es + [e], id) <==> Waits(parse, es, id) && !Closes(parse, es, e, id)
    ensures AnsweredIn(parse, es + [e], id) <==> AnsweredIn(parse, es, id) || Answers(parse, e, id)
    ensures forall k: nat :: k < |es| ==> (FirstCloses(parse, es + [e], k, id) <==> FirstCloses(parse, es, k, id))
    ensures FirstCloses(parse, es + [e], |es|, id) <==> Waits(parse, es, id) && Closes(parse, es, e, id)
    ensures forall k: nat :: FirstCloses(parse, es + [e], k, id) ==> k <= |es|
    ensures forall k: nat :: k < |es| ==> EndsUnbuildable(parse, es + [e], k, id) == EndsUnbuildable(parse, es, k, id)
  {
    var t := es + [e];
    hide Answers, AnsweredIn, LastHead, Buildable;
    assert forall k: nat :: k < |es| ==> t[..k] == es[..k] && t[k] == es[k];
    assert t[..|es|] == es && t[|es|] == e;
    AnsweredLonger(parse, es, e, id);
  }

  lemma AnsweredLonger(parse: seq<byte> -> Json, es: seq<Event>, e: Event, id: nat)
    ensures AnsweredIn(parse, es + [e], id) <==> AnsweredIn(parse, es, id) || Answers(parse, e, id)
  {
    hide Answers;
    assert forall d :: d in es + [e] <==> d in es || d == e;
  }

  lemma LastHeadLonger(parse: seq<byte> -> Json, es: seq<Event>, e: Event, id: nat)
    ensures LastHead(parse, es + [e], id)
         == if Answers(parse, e, id) then LastHead(parse, [e], id) else LastHead(parse, es, id)
  {
    assert (es + [e])[..|es|] == es && (es + [e])[|es|] == e && [e][0] == e;
    hide Answers;
  }

  lemma BuildsIff(w: Waiter)
    ensures Build(w).Some? <==> Buildable(GetOr(w.head, Head(Some(502), [])))
  {
    hide Buildable;
  }

  /** What an event is to a request: an answer, its end, something that closes, or nothing of these. */
  lemma EventKinds(parse: seq<byte> -> Json, before: seq<Event>, e: Event, id: nat)
    ensures !Concerns(e, id) ==> !Answers(parse, e, id) && !Closes(parse, before, e, id)
    ensures Answers(parse, e, id) ==> Concerns(e, id) && !Closes(parse, before, e, id)
    ensures Concerns(e, id) && e.Message? && e.bytes[0] == END ==> Closes(parse, before, e, id)
    ensures Concerns(e, id) && e.Message? && e.bytes[0] != END ==> !Closes(parse, before, e, id)
  {
    hide ReadWord, HeadPart;
  }

  lemma AnswerSeen(parse: seq<byte> -> Json, v: View, e: Event, id: nat)
    requires Answers(parse, e, id) && v.waiter.Some?
    ensures var r := Alone(parse, v, e);
            r == v.(waiter := Some(v.waiter.value.(head := LastHead(parse, [e], id))), timer := false, answered := true)
  {
    hide ReadWord, HeadPart;
  }

  lemma TrackedWhileOpen(parse: seq<byte> -> Json, es: seq<Event>, e: Event, id: nat, v: View)
    requires Tracked(parse, es, id, v) && Waits(parse, es, id) && Concerns(e, id) && !Closes(parse, es, e, id)
    ensures Tracked(parse, es + [e], id, Alone(parse, v, e))
  {
    LongerWaits(parse, es, e, id);
    LastHeadLonger(parse, es, e, id);
    EventKinds(parse, es, e, id);
    if Answers(parse, e, id) {
      AnswerSeen(parse, v, e, id);
    } else {
      UnansweredSeen(parse, es, v, e, id);
    }
    hide Answers, Alone, Concerns, Closes, AnsweredIn, LastHead, Waits, EndsUnbuildable;
  }

  lemma UnansweredSeen(parse: seq<byte> -> Json, es: seq<Event>, v: View, e: Event, id: nat)
    requires v.waiter.Some? && Concerns(e, id) && !Answers(parse, e, id) && !Closes(parse, es, e, id)
    requires (v.answered <==> AnsweredIn(parse, es, id)) && v.timer == !v.answered
    ensures var r := Alone(parse, v, e); r.(waiter := v.waiter) == v && r.waiter.Some? && r.waiter.value.head == v.waiter.value.head
  {
    hide HeadPart, AnsweredIn, Build, ReadWord;
  }

  lemma TrackedAtClose(parse: seq<byte> -> Json, es: seq<Event>, e: Event, id: nat, v: View)
    requires Tracked(parse, es, id, v) && Waits(parse, es, id) && Closes(parse, es, e, id)
    requires v.waiter.Some? && v.waiter.value.head.Some? ==> v.answered
    ensures Tracked(parse, es + [e], id, Alone(parse, v, e))
  {
    LongerWaits(parse, es, e, id);
    BuildsIff(v.waiter.value);
    ClosingSeen(parse, es, v, e, id);
    var t := es + [e];
    assert t[|es|] == e && t[..|es|] == es;
    assert EndsUnbuildable(parse, t, |es|, id)
      <==> FrameOf(e, END, id) && !Buildable(GetOr(v.waiter.value.head, Head(Some(502), [])));
    NoneFirstWhileWaiting(parse, es, id);
    hide Alone, Closes, AnsweredIn, LastHead, Waits, EndsUnbuildable, Buildable, FrameOf, FirstCloses;
  }

  lemma NoneFirstWhileWaiting(parse: seq<byte> -> Json, es: seq<Event>, id: nat)
    requires Waits(parse, es, id)
    ensures forall k: nat :: k < |es| ==> !FirstCloses(parse, es, k, id)
  {
    hide Closes;
  }

  lemma ClosingSeen(parse: seq<byte> -> Json, es: seq<Event>, v: View, e: Event, id: nat)
    requires v.waiter.Some? && v.outcome.None? && !v.stuck && Closes(parse, es, e, id)
    requires (v.answered <==> AnsweredIn(parse, es, id)) && v.timer == !v.answered
    requires v.waiter.value.head.Some? ==> v.answered
    ensures var r := Alone(parse, v, e);
            && r.waiter.None? && (r.stuck <==> FrameOf(e, END, id) && Build(v.waiter.value).None?)
            && (r.outcome.Some? <==> !r.stuck) && (r.stuck ==> !r.timer)
  {
    UnbuildableHasHead(v.waiter.value);
    hide HeadPart, AnsweredIn, Build, ReadWord;
  }

  lemma TrackedWhenClosed(parse: seq<byte> -> Json, es: seq<Event>, e: Event, id: nat, v: View)
    requires Tracked(parse, es, id, v) && !Waits(parse, es, id)
    ensures Tracked(parse, es + [e], id, Alone(parse, v, e))
  {
    LongerWaits(parse, es, e, id);
    SomeFirstCloses(parse, es, id);
    var k :| FirstCloses(parse, es, k, id);
    ClosedSeen(parse, v, e);
    hide Alone, Closes, AnsweredIn, LastHead, Waits, EndsUnbuildable, FirstCloses;
  }

  lemma ClosedSeen(parse: seq<byte> -> Json, v: View, e: Event)
    requires v.waiter.None? && (v.stuck ==> !v.timer) && (v.outcome.Some? <==> !v.stuck)
    ensures var r := Alone(parse, v, e);
            r.waiter.None? && (r.stuck ==> !r.timer) && r.stuck == v.stuck && (r.outcome.Some? <==> !r.stuck)
  {
    hide HeadPart, Build;
  }

  lemma {:induction false} SomeFirstCloses(parse: seq<byte> -> Json, es: seq<Event>, id: nat)
    requires !Waits(parse, es, id)
    ensures exists k :: FirstCloses(parse, es, k, id)
    decreases |es|
  {
    var front, e := es[..|es| - 1], es[|es| - 1];
    assert es == front + [e];
    LongerWaits(parse, front, e, id);
    hide Closes, Waits;
    if !Waits(parse, front, id) {
      SomeFirstCloses(parse, front, id);
      var k :| FirstCloses(parse, front, k, id);
      assert FirstCloses(parse, es, k, id);
    } else {
      assert FirstCloses(parse, es, |front|, id);
    }
  }

  lemma TrackStep(parse: seq<byte> -> Json, es: seq<Event>, e: Event, id: nat, v: View)
    requires Tracked(parse, es, id, v) && (v.waiter.Some? && v.waiter.value.head.Some? ==> v.answered)
    ensures Tracked(parse, es + [e], id, if Concerns(e, id) then Alone(parse, v, e) else v)
  {
    hide Alone, Concerns, Closes, Waits, Tracked;
    if !Concerns(e, id) {
      TrackedUnconcerned(parse, es, e, id, v);
    } else if !Waits(parse, es, id) {
      TrackedWhenClosed(parse, es, e, id, v);
    } else if Closes(parse, es, e, id) {
      TrackedAtClose(parse, es, e, id, v);
    } else {
      TrackedWhileOpen(parse, es, e, id, v);
    }
  }

  lemma TrackedUnconcerned(parse: seq<byte> -> Json, es: seq<Event>, e: Event, id: nat, v: View)
    requires Tracked(parse, es, id, v) && !Concerns(e, id)
    ensures Tracked(parse, es + [e], id, v)
  {
    LongerWaits(parse, es, e, id);
    LastHeadLonger(parse, es, e, id);
    EventKinds(parse, es, e, id);
    hide Answers, Alone, Concerns, Closes, AnsweredIn, LastHead, Waits, EndsUnbuildable, FirstCloses;
  }

  function RunFront(parse: seq<byte> -> Json, s: State, es: seq<Event>): State {
    if es == [] then s else Step(parse, RunFront(parse, s, es[..|es| - 1]), es[|es| - 1])
  }

  lemma {:induction false} RunIsRunFront(parse: seq<byte> -> Json, s: State, es: seq<Event>)
    ensures Run(parse, s, es) == RunFront(parse, s, es)
    decreases |es|
  {
    hide Step;
    if |es| > 1 {
      var front := es[..|es| - 1];
      RunIsRunFront(parse, Step(parse, s, es[0]), es[1..]);
      RunIsRunFront(parse, Step(parse, s, es[0]), front[1..]);
      RunIsRunFront(parse, s, front);
      assert es[1..][..|es| - 2] == front[1..] && es[1..][|es| - 2] == es[|es| - 1];
    } else if |es| == 1 {
      assert es[1..] == [] && es[..0] == [];
    }
  }

  lemma {:induction false} RequestTracked(parse: seq<byte> -> Json, s: State, es: seq<Event>, id: nat)
    requires Inv(s) && id < s.nextId && Tracked(parse, [], id, ViewOf(s, id))
    ensures var t := RunFront(parse, s, es);
            Inv(t) && id < t.nextId && Tracked(parse, es, id, ViewOf(t, id))
    decreases |es|
  {
    hide Inv, Step, Tracked, ViewOf, Alone, Concerns;
    if es != [] {
      var front, e := es[..|es| - 1], es[|es| - 1];
      RequestTracked(parse, s, front, id);
      var t := RunFront(parse, s, front);
      assert es == front + [e];
      StepKeepsInv(parse, t, e);
      StepSeenAlone(parse, t, e, id);
      HeadsAreAnswered(t, id);
      TrackStep(parse, front, e, id, ViewOf(t, id));
    }
  }

  lemma HeadsAreAnswered(s: State, id: nat)
    requires Inv(s)
    ensures var v := ViewOf(s, id); v.waiter.Some? && v.waiter.value.head.Some? ==> v.answered
  {
  }

  /**
   What becomes of a request over any run: it waits until its END, the channel's end, or a timeout with no
   answer before it. Whichever comes first settles it, but for an END on a head no Response can be built
   from, and then it is never settled. So past its timeout it can still be unsettled in two ways only: it was
   answered in time and its END has not come, or has come on such a head.
   */
  lemma FateOfARequest(parse: seq<byte> -> Json, s: State, es: seq<Event>)
    requires Inv(s)
    ensures var id, t := s.nextId, Run(parse, Step(parse, s, Fetch(true)), es);
            && (id in t.pending <==> Waits(parse, es, id))
            && (forall k :: FirstCloses(parse, es, k, id) ==>
                  && (id in t.stuck <==> EndsUnbuildable(parse, es, k, id))
                  && (id in t.outcomes <==> !EndsUnbuildable(parse, es, k, id)))
            && (id !in t.outcomes <==> Waits(parse, es, id)
                                       || exists k :: FirstCloses(parse, es, k, id) && EndsUnbuildable(parse, es, k, id))
  {
    var id := s.nextId;
    var f := Step(parse, s, Fetch(true));
    JustSent(parse, s);
    StepKeepsInv(parse, s, Fetch(true));
    RequestTracked(parse, f, es, id);
    RunIsRunFront(parse, f, es);
    if !Waits(parse, es, id) { SomeFirstCloses(parse, es, id); }
    hide Inv, Step, Waits, FirstCloses, EndsUnbuildable, RunFront, Run, LastHead, AnsweredIn;
  }

  lemma JustSent(parse: seq<byte> -> Json, s: State)
    requires Inv(s)
    ensures var f := Step(parse, s, Fetch(true));
            s.nextId < f.nextId && Tracked(parse, [], s.nextId, ViewOf(f, s.nextId))
  {
  }

  /** Heads no Response can be built from: a 205, which the constructor refuses, and a cookie that is a number. */
  lemma UnbuildableHeads(headers: seq<(string, Value)>)
    ensures !Buildable(Head(Some(205), headers))
    ensures !Buildable(Head(Some(200), [("Set-Cookie", Plain(true))]))
  {
    var h := ("Set-Cookie", Plain(true));
    assert Lower(h.0) == "set-cookie";
    OneHeaderAbsorbs(h);
    assert h.1 in LinesOf(h.1) && !Splits(h.1);
  }

  /** Body frames of one request, in order. */
  function Bodies(id: nat, chunks: seq<seq<byte>>): seq<Event> {
    if chunks == [] then [] else [Message([3] + Word(id) + chunks[0])] + Bodies(id, chunks[1..])
  }

  lemma {:induction false} BodiesCollect(parse: seq<byte> -> Json, v: View, id: nat, chunks: seq<seq<byte>>, rest: seq<Event>)
    requires v.waiter.Some?
    ensures RunAlone(parse, v, Bodies(id, chunks) + rest)
            == RunAlone(parse, v.(waiter := Some(v.waiter.value.(chunks := v.waiter.value.chunks + chunks))), rest)
    decreases |chunks|
  {
    var es := Bodies(id, chunks) + rest;
    var w := v.waiter.value;
    if chunks == [] {
      assert es == rest && w.chunks + chunks == w.chunks;
    } else {
      assert FrameBytes(BODY, id, chunks[0])[5..] == chunks[0];
      assert es[1..] == Bodies(id, chunks[1..]) + rest;
      var v1 := v.(waiter := Some(w.(chunks := w.chunks + [chunks[0]])));
      assert Alone(parse, v, es[0]) == v1;
      BodiesCollect(parse, v1, id, chunks[1..], rest);
      assert w.chunks + [chunks[0]] + chunks[1..] == w.chunks + chunks;
    }
  }

  /** The answer a host sends for request @p id: its head, its body in chunks, its end. */
  function Answer(id: nat, json: seq<byte>, chunks: seq<seq<byte>>): seq<Event> {
    [Message([2] + Word(id) + HeadBytes(json, []))] + Bodies(id, chunks) + [Message([4] + Word(id))]
  }

  lemma AnswerAlone(parse: seq<byte> -> Json, v: View, id: nat, json: seq<byte>, chunks: seq<seq<byte>>, head: Head)
    requires v.waiter == Some(Waiter(None, [])) && |json| < WORD && parse(json) == Parsed(head)
    ensures var r := RunAlone(parse, v, Answer(id, json, chunks));
            var built := Build(Waiter(Some(head), chunks));
            if built.Some? then r == View(None, Keep(v.outcome, Resolved(built.value)), v.stuck, false, true)
            else r == View(None, v.outcome, true, false, true)
  {
    hide Build;
    HeadReadsBack(json, []);
    var es := Answer(id, json, chunks);
    var end := [Message([4] + Word(id))];
    assert [4] + Word(id) == FrameBytes(END, id, []);
    var first := FrameBytes(RESPONSE, id, HeadBytes(json, []));
    assert first[5..] == HeadBytes(json, []) && |HeadBytes(json, [])| >= 4;
    hide HeadPart, HeadBytes, Word;
    assert es[0] == Message(first) && es[1..] == Bodies(id, chunks) + end;
    var v1 := v.(waiter := Some(Waiter(Some(head), [])), timer := false, answered := true);
    assert Alone(parse, v, es[0]) == v1;
    BodiesCollect(parse, v1, id, chunks, end);
    assert [] + chunks == chunks;
    var v2 := v1.(waiter := Some(Waiter(Some(head), chunks)));
    assert RunAlone(parse, v2, end) == RunAlone(parse, Alone(parse, v2, end[0]), end[1..]);
    assert end[1..] == [];
  }

  /**
   The theorem of the channel: a fetch just sent, whose own frames arrive in their own order anywhere among
   the others, resolves with its own status, its own headers but for Set-Cookie, and the in-order
   concatenation of its own chunks; a 204, a 304 or a status below 200 with no body at all.
   */
  lemma FetchResolvesWithItsOwnAnswer(parse: seq<byte> -> Json, s: State, es: seq<Event>, json: seq<byte>,
                                      chunks: seq<seq<byte>>, head: Head) returns (at: seq<nat>)
    requires Inv(s) && |json| < WORD && parse(json) == Parsed(head) && Buildable(head)
    requires Own(es, s.nextId) == Answer(s.nextId, json, chunks)
    ensures var t := Run(parse, Step(parse, s, Fetch(true)), es);
            && s.nextId in t.outcomes && s.nextId !in t.pending && t.outcomes[s.nextId].Resolved?
            && var r := t.outcomes[s.nextId].response;
               && r.status == (if head.status.Some? then head.status.value % 0x1_0000 else 200)
               && r.body == (if head.status.Some? && (head.status.value < 200 || head.status.value in {204, 304}) then None
                             else Some(Flatten(chunks)))
               && Picks(head.headers, r.headers, at)
  {
    var id := s.nextId;
    var f := Step(parse, s, Fetch(true));
    assert ViewOf(f, id) == View(Some(Waiter(None, [])), None, false, true, false);
    RequestSeesOnlyItsOwn(parse, f, es, id);
    AnswerAlone(parse, ViewOf(f, id), id, json, chunks, head);
    at := VisibleIs(head.headers);
  }

  /** The strings among a header's lines. */
  function Texts(lines: seq<Value>): seq<string> {
    if lines == [] then [] else (if lines[0].Text? then [lines[0].text] else []) + Texts(lines[1..])
  }

  lemma {:induction false} TakenAll(lines: seq<Value>)
    requires forall l :: l in lines ==> Splits(l)
    ensures Taken(lines) == Texts(lines)
  {
    if lines != [] {
      assert lines[0] in lines && forall l :: l in lines[1..] ==> l in lines;
      TakenAll(lines[1..]);
    }
  }

  /** The cookies of a buildable head, header by header: exactly the strings its Set-Cookie values hold, in order. */
  lemma {:induction false} CookiesAre(headers: seq<(string, Value)>, more: seq<(string, Value)>)
    requires Absorbs(headers)
    ensures SetCookies(headers + more) == SetCookies(headers) + SetCookies(more)
    ensures |headers| == 1 ==>
              SetCookies(headers) == if Lower(headers[0].0) != "set-cookie" then []
                                     else Texts(if headers[0].1.List? then headers[0].1.items else [headers[0].1])
    decreases |headers|
  {
    var all := headers + more;
    if headers == [] {
      assert all == more;
    } else {
      assert all[1..] == headers[1..] + more && headers == [headers[0]] + headers[1..];
      AbsorbsOneMore(headers, 0);
      assert forall h :: h in headers[1..] ==> h in headers;
      CookiesAre(headers[1..], more);
      OneHeaderAbsorbs(headers[0]);
      if IsCookie(headers[0]) { TakenAll(LinesOf(headers[0].1)); }
      hide Absorbs, Lower, Taken;
    }
  }

  /** The END of an answered request hands the jar the cookies of its head, and no other event of it does. */
  lemma EndTakesTheCookies(parse: seq<byte> -> Json, s: State, e: Event)
    ensures var t := Step(parse, s, e);
            t.cookies == if e.Message? && |e.bytes| >= 5 && e.bytes[0] == 4 && ReadWord(e.bytes[1..5]) in s.pending
                            && s.pending[ReadWord(e.bytes[1..5])].head.Some?
                         then s.cookies + SetCookies(s.pending[ReadWord(e.bytes[1..5])].head.value.headers) else s.cookies
  {
    hide ReadWord, HeadPart, Build;
  }

  // ----- What a socket hears --------------------------------------------------------------------

  /** The payload of the frame of this kind that an event brings for this id, if it brings one. */
  function FrameFor(e: Event, kind: byte, id: nat): Option<seq<byte>> {
    if e.Message? && ParseFrame(e.bytes).Some? && ParseFrame(e.bytes).value.kind == kind && ParseFrame(e.bytes).value.id == id
    then Some(ParseFrame(e.bytes).value.payload) else None
  }

  /** The host closes the socket, or the channel ends. */
  predicate Shuts(e: Event, id: nat) {
    e.Teardown? || FrameFor(e, 7, id).Some?
  }

  /** The payloads of the socket's text frames until it is shut, in order. */
  function Heard(es: seq<Event>, id: nat): seq<seq<byte>>
    decreases |es|
  {
    if es == [] || Shuts(es[0], id) then []
    else (if FrameFor(es[0], 6, id).Some? then [FrameFor(es[0], 6, id).value] else []) + Heard(es[1..], id)
  }

  /** Open after the host's word that it is, closing after the page asked to close it, whichever came last. */
  function ReadyAfter(es: seq<Event>, id: nat, ready: nat): nat
    decreases |es|
  {
    if es == [] then ready
    else ReadyAfter(es[1..], id, if FrameFor(es[0], 8, id).Some? then 1 else if es[0] == CloseSocket(id) then 2 else ready)
  }

  lemma FrameMovesSocket(parse: seq<byte> -> Json, s: State, f: Frame, id: nat)
    requires Inv(s) && id in s.sockets
    ensures var t := OnFrame(parse, s, f);
            var mine := id in s.open && f.id == id;
            && id in t.sockets
            && (mine && f.kind == 7 ==> id !in t.open && t.sockets[id] == s.sockets[id].(ready := 3, closes := 1))
            && (!(mine && f.kind == 7) ==>
                  && (id in t.open <==> id in s.open)
                  && t.sockets[id] == if mine && f.kind == 8 then s.sockets[id].(ready := 1)
                                      else if mine && f.kind == 6 then s.sockets[id].(received := s.sockets[id].received + [f.payload])
                                      else s.sockets[id])
  {
    hide OnResponse, OnEnd, RequestsInv;
    ResponseLeavesSockets(parse, s, f.id, f.payload);
    EndLeavesSockets(s, f.id);
  }

  lemma ResponseLeavesSockets(parse: seq<byte> -> Json, s: State, id: nat, payload: seq<byte>)
    ensures OnResponse(parse, s, id, payload).sockets == s.sockets && OnResponse(parse, s, id, payload).open == s.open
  {
    hide HeadPart;
  }

  lemma EndLeavesSockets(s: State, id: nat)
    ensures OnEnd(s, id).sockets == s.sockets && OnEnd(s, id).open == s.open
  {
    hide Build, SetCookies;
  }

  lemma StepMovesSocket(parse: seq<byte> -> Json, s: State, e: Event, id: nat)
    requires Inv(s) && id in s.sockets
    ensures var t, k := Step(parse, s, e), s.sockets[id];
            && id in t.sockets
            && (id !in s.open ==> id !in t.open && t.sockets[id] == k)
            && (id in s.open && Shuts(e, id) ==> id !in t.open && t.sockets[id] == k.(ready := 3, closes := 1))
            && (id in s.open && !Shuts(e, id) ==>
                  && id in t.open
                  && t.sockets[id].received == k.received + (if FrameFor(e, 6, id).Some? then [FrameFor(e, 6, id).value] else [])
                  && t.sockets[id].ready == (if FrameFor(e, 8, id).Some? then 1 else if e == CloseSocket(id) then 2 else k.ready)
                  && t.sockets[id].closes == k.closes)
  {
    if e.Message? && ParseFrame(e.bytes).Some? { FrameMovesSocket(parse, s, ParseFrame(e.bytes).value, id); }
    hide OnFrame, ParseFrame, RequestsInv;
  }

  lemma {:induction false} ShutForGood(parse: seq<byte> -> Json, s: State, es: seq<Event>, id: nat)
    requires Inv(s) && id in s.sockets && id !in s.open
    ensures var t := Run(parse, s, es);
            id in t.sockets && id !in t.open && t.sockets[id] == s.sockets[id]
    decreases |es|
  {
    if es != [] {
      hide Inv, Step;
      StepKeepsInv(parse, s, es[0]);
      StepMovesSocket(parse, s, es[0], id);
      ShutForGood(parse, Step(parse, s, es[0]), es[1..], id);
    }
  }

  ghost predicate ShutBy(es: seq<Event>, id: nat) {
    exists k :: 0 <= k < |es| && Shuts(es[k], id)
  }

  lemma ShutFirstOrLater(es: seq<Event>, id: nat)
    requires es != []
    ensures ShutBy(es, id) <==> Shuts(es[0], id) || ShutBy(es[1..], id)
  {
    hide Shuts;
    assert forall k :: 1 <= k < |es| ==> es[k] == es[1..][k - 1];
    if ShutBy(es[1..], id) {
      var k :| 0 <= k < |es| - 1 && Shuts(es[1..][k], id);
      assert Shuts(es[k + 1], id);
    }
  }

  lemma NothingYetHeard(parse: seq<byte> -> Json, s: State, es: seq<Event>, id: nat)
    requires Inv(s) && id in s.open && id in s.sockets && es == []
    ensures Run(parse, s, es) == s && Heard(es, id) == [] && !ShutBy(es, id)
    ensures ReadyAfter(es, id, s.sockets[id].ready) == s.sockets[id].ready && s.sockets[id].closes == 0
  {
    OpenSocketIsLive(s, id);
  }

  /**
   Whatever else the channel carries, an open socket hears exactly its own text frames, each once and in order,
   up to the event that shuts it; its close is reported once, by that event and never before.
   */
  lemma {:induction false} SocketHearsItsOwn(parse: seq<byte> -> Json, s: State, es: seq<Event>, id: nat)
    requires Inv(s) && id in s.open && id in s.sockets
    ensures var t := Run(parse, s, es);
            && id in t.sockets && t.sockets[id].received == s.sockets[id].received + Heard(es, id)
            && if ShutBy(es, id)
               then id !in t.open && t.sockets[id].ready == 3 && t.sockets[id].closes == 1
               else id in t.open && t.sockets[id].ready == ReadyAfter(es, id, s.sockets[id].ready) && t.sockets[id].closes == 0
    decreases |es|
  {
    hide Inv, Step, Shuts, FrameFor, ShutBy;
    if es == [] {
      NothingYetHeard(parse, s, es, id);
      assert s.sockets[id].received + [] == s.sockets[id].received;
    } else {
      var next := Step(parse, s, es[0]);
      ShutFirstOrLater(es, id);
      StepKeepsInv(parse, s, es[0]);
      StepMovesSocket(parse, s, es[0], id);
      if Shuts(es[0], id) {
        ShutForGood(parse, next, es[1..], id);
        assert s.sockets[id].received + [] == s.sockets[id].received;
      } else {
        SocketHearsItsOwn(parse, next, es[1..], id);
        var (said, rest) := (if FrameFor(es[0], 6, id).Some? then [FrameFor(es[0], 6, id).value] else [], Heard(es[1..], id));
        assert Heard(es, id) == said + rest;
        assert s.sockets[id].received + said + rest == s.sockets[id].received + (said + rest);
      }
    }
  }

  /** So does one opened in the middle of any run, from its first frame on. */
  lemma OpenedSocketHears(parse: seq<byte> -> Json, before: seq<Event>, after: seq<Event>)
    ensures var s := Run(parse, FRESH, before);
            var t := Run(parse, Step(parse, s, OpenSocket), after);
            && s.nextId !in s.sockets && s.nextId in t.sockets
            && t.sockets[s.nextId].received == Heard(after, s.nextId)
  {
    RunKeepsInv(parse, FRESH, before);
    var s := Run(parse, FRESH, before);
    StepKeepsInv(parse, s, OpenSocket);
    hide Run;
    SocketHearsItsOwn(parse, Step(parse, s, OpenSocket), after, s.nextId);
    assert [] + Heard(after, s.nextId) == Heard(after, s.nextId);
  }

  // ----- The object -----------------------------------------------------------------------------

  class Channel {
    const parse: seq<byte> -> Json
    var nextId: nat
    var fetches: set<nat>
    var pending: map<nat, Waiter>
    var timers: set<nat>
    var outcomes: map<nat, Outcome>
    var stuck: set<nat>
    ghost var answered: set<nat>
    var sockets: map<nat, Socket>
    var open: set<nat>
    var cookies: seq<string>

    ghost function Now(): State
      reads this
    {
      State(nextId, fetches, pending, timers, outcomes, stuck, answered, sockets, open, cookies)
    }

    constructor (parse: seq<byte> -> Json)
      ensures Now() == FRESH && this.parse == parse
    {
      this.parse := parse;
      nextId, fetches, pending, timers, outcomes, stuck, sockets, open, cookies := 1, {}, map[], {}, map[], {}, map[], {}, [];
      answered := {};
    }

    method SettleOne(id: nat, o: Outcome)
      modifies this`outcomes
      ensures outcomes == Settle(old(outcomes), id, o)
    {
      if id !in outcomes { outcomes := outcomes[id := o]; }
    }

    /** One request; @p sent: the channel took the frame. */
    method FetchOne(sent: bool) returns (id: nat)
      modifies this
      ensures Now() == OnFetch(old(Now()), sent) && id == old(nextId)
    {
      id := nextId;
      nextId := nextId + 1;
      fetches := fetches + {id};
      pending := pending[id := Waiter(None, [])];
      timers := timers + {id};
      assert pending - {id} == old(pending) - {id} && timers - {id} == old(timers) - {id};
      if !sent {
        timers := timers - {id};
        pending := pending - {id};
        SettleOne(id, Rejected("the connection to your machine is not open"));
      }
    }

    method OpenOne() returns (id: nat)
      modifies this`nextId, this`sockets, this`open
      ensures Now() == OnOpenSocket(old(Now())) && id == old(nextId)
    {
      id := nextId;
      nextId := nextId + 1;
      sockets := sockets[id := Socket(0, [], 0)];
      open := open + {id};
    }

    method SocketClosed(id: nat)
      requires id in sockets
      modifies this`sockets, this`open
      ensures Now() == Closed(old(Now()), id)
    {
      if sockets[id].ready == 3 { return; }
      sockets := sockets[id := sockets[id].(ready := 3, closes := sockets[id].closes + 1)];
      open := open - {id};
    }

    /** The jar's loop over the lines of one header; false is its exception. */
    method AbsorbCookie(value: Value) returns (ok: bool)
      modifies this`cookies
      ensures ok <==> forall l :: l in LinesOf(value) ==> Splits(l)
      ensures cookies == old(cookies) + Taken(LinesOf(value))
    {
      var lines := LinesOf(value);
      assert lines[0..] == lines;
      for k := 0 to |lines|
        invariant forall l :: l in lines[..k] ==> Splits(l)
        invariant cookies + Taken(lines[k..]) == old(cookies) + Taken(lines)
      {
        assert lines[k..][0] == lines[k] && lines[k..][1..] == lines[k + 1..] && lines[..k + 1] == lines[..k] + [lines[k]];
        if !Splits(lines[k]) {
          assert lines[k] in lines && Taken(lines[k..]) == [];
          assert cookies + [] == cookies;
          return false;
        }
        if lines[k].Text? { cookies := cookies + [lines[k].text]; }
      }
      assert lines[..|lines|] == lines && lines[|lines|..] == [] && cookies + [] == cookies;
      ok := true;
    }

    /** The header loop: a Set-Cookie goes to the jar, everything else to the response. */
    method TakeHeaders(all: seq<(string, Value)>) returns (ok: bool, headers: seq<(string, Value)>)
      modifies this`cookies
      ensures ok <==> Absorbs(all)
      ensures ok ==> headers == Visible(all)
      ensures cookies == old(cookies) + SetCookies(all)
    {
      hide Absorbs, Splits, Taken, LinesOf, IsCookie;
      headers := [];
      assert all[0..] == all && all[..0] == [];
      OneHeaderAbsorbs(("", Plain(false)));
      for k := 0 to |all|
        invariant Absorbs(all[..k])
        invariant headers + Visible(all[k..]) == Visible(all)
        invariant cookies + SetCookies(all[k..]) == old(cookies) + SetCookies(all)
      {
        assert all[k..][0] == all[k] && all[k..][1..] == all[k + 1..];
        AbsorbsOneMore(all, k);
        OneHeaderAbsorbs(all[k]);
        if IsCookie(all[k]) {
          var taken := AbsorbCookie(all[k].1);
          if !taken {
            assert SetCookies(all[k..]) == Taken(LinesOf(all[k].1)) + [];
            return false, [];
          }
        } else {
          headers := headers + [all[k]];
        }
      }
      assert all[..|all|] == all && all[|all|..] == [] && headers + [] == headers && cookies + [] == cookies;
      ok := true;
    }

    /** `_buildResponse`: cookies are taken as the headers go by, before the constructor can refuse. */
    method BuildResponse(w: Waiter) returns (r: Option<Response>)
      modifies this`cookies
      ensures r == Build(w) && cookies == old(cookies) + SetCookies(HeadOf(w).headers)
    {
      var head := HeadOf(w);
      var body := Assemble(w.chunks);
      var ok, headers := TakeHeaders(head.headers);
      r := if ok && Constructible(head.status)
           then Some(Response(WireStatus(head.status), if Bodyless(head.status) then None else Some(body), headers)) else None;
    }

    method OnChannelMessage(bytes: seq<byte>)
      modifies this
      ensures Now() == Step(parse, old(Now()), Message(bytes))
    {
      if |bytes| < 5 { return; }
      var kind, id, payload := bytes[0], ReadWord(bytes[1..5]), bytes[5..];
      if kind == RESPONSE {
        if id !in pending || |payload| < 4 { return; }
        var j := parse(HeadPart(payload));
        if j.Malformed? { return; }
        pending := pending[id := pending[id].(head := if j.Parsed? then Some(j.head) else None)];
        timers, answered := timers - {id}, answered + {id};
      } else if kind == BODY {
        if id in pending { pending := pending[id := pending[id].(chunks := pending[id].chunks + [payload])]; }
      } else if kind == END {
        if id !in pending { return; }
        var w := pending[id];
        pending := pending - {id};
        var r := BuildResponse(w);
        if r.Some? { SettleOne(id, Resolved(r.value)); } else { stuck := stuck + {id}; }
      } else if id in open && id in sockets {
        if kind == WS_OPENED {
          sockets := sockets[id := sockets[id].(ready := 1)];
        } else if kind == WS_TEXT {
          sockets := sockets[id := sockets[id].(received := sockets[id].received + [payload])];
        } else if kind == WS_CLOSE {
          SocketClosed(id);
        }
      }
    }

    method OnTimer(id: nat)
      modifies this`timers, this`pending, this`outcomes
      ensures Now() == Step(parse, old(Now()), Timeout(id))
    {
      if id !in timers { return; }
      timers := timers - {id};
      pending := pending - {id};
      SettleOne(id, Rejected("the host did not answer"));
    }

    method CloseOne(id: nat)
      modifies this`sockets
      ensures Now() == OnCloseSocket(old(Now()), id)
    {
      if id !in sockets || sockets[id].ready == 3 { return; }
      sockets := sockets[id := sockets[id].(ready := 2)];
    }

    /** `_teardown`: close every socket in the table, reject every waiter, empty both. */
    method TearDown(why: string)
      requires open <= sockets.Keys
      modifies this
      ensures Now() == OnTeardown(old(Now()), why)
    {
      ghost var was := Now();
      CloseSockets();
      RejectWaiters(why);
      assert sockets == OnTeardown(was, why).sockets;
      assert outcomes == OnTeardown(was, why).outcomes;
    }

    method CloseSockets()
      requires open <= sockets.Keys
      modifies this`sockets, this`open
      ensures open == {} && sockets.Keys == old(sockets.Keys)
      ensures forall id :: id in sockets ==>
                sockets[id] == if id in old(open) && old(sockets)[id].ready != 3
                               then old(sockets)[id].(ready := 3, closes := old(sockets)[id].closes + 1) else old(sockets)[id]
    {
      var left := open;
      while left != {}
        invariant left <= old(open) && sockets.Keys == old(sockets.Keys)
        invariant forall id :: id in sockets ==>
                    sockets[id] == if id in old(open) - left && old(sockets)[id].ready != 3
                                   then old(sockets)[id].(ready := 3, closes := old(sockets)[id].closes + 1) else old(sockets)[id]
        decreases left
      {
        var id :| id in left;
        SocketClosed(id);
        left := left - {id};
      }
      open := {};
    }

    method RejectWaiters(why: string)
      modifies this`pending, this`outcomes
      ensures pending == map[] && outcomes.Keys == old(outcomes).Keys + old(pending).Keys
      ensures forall id :: id in outcomes ==> outcomes[id] == if id in old(outcomes) then old(outcomes)[id] else Rejected(why)
    {
      var left := pending.Keys;
      while left != {}
        invariant left <= old(pending).Keys && pending == old(pending)
        invariant outcomes.Keys == old(outcomes).Keys + (old(pending).Keys - left)
        invariant forall id :: id in outcomes ==> outcomes[id] == if id in old(outcomes) then old(outcomes)[id] else Rejected(why)
        decreases left
      {
        var id :| id in left;
        SettleOne(id, Rejected(why));
        left := left - {id};
      }
      pending := map[];
    }
  }
}
