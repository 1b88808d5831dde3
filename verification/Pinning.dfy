/**
 Trust on first use in bootstrap/v1/pairing.js: the record kept per host, the identity a page holds, and
 `verifyOffer`, which pins a host's key the first time it signs for itself.
 */
module Pinning {
  import opened Base
  import opened Bytes
  import opened Fingerprint
  import opened SignedMessage

  /** One per host; the browser's own key pair is known by its id. */
  datatype Record = Record(keyId: string, hostKey: Option<string>)

  type Store = map<string, Record>

  /** An identity as a page loaded it. */
  datatype Known = Known(hostId: string, keyId: string, hostKey: Option<string>, nonceB: Option<seq<byte>>)

  /** Fields that are missing from the message are empty. */
  datatype Offer = Offer(hostId: string, hostKey: string, sig: string, nonce: string, sdp: Option<string>)

  datatype Reason = Unsigned | OtherHost | NoFingerprint | OtherKey | Unusable | BadSignature | NotStored

  datatype Verdict = Accepted(firstContact: bool, fingerprint: string) | Rejected(reason: Reason)

  /** A signature check: key, signature, message. None when the key or the signature cannot be used. */
  type Check = (string, string, seq<byte>) -> Option<bool>

  // ----- The operations on values ---------------------------------------------------------------

  function Loaded(store: Store, hostId: string, newKeyId: string): (r: (Store, Known))
    ensures hostId in r.0 && r.1 == Known(hostId, r.0[hostId].keyId, r.0[hostId].hostKey, None)
    ensures hostId in store ==> r.0 == store
    ensures hostId !in store ==> r.0 == store[hostId := Record(newKeyId, None)]
  {
    var s := if hostId in store then store else store[hostId := Record(newKeyId, None)];
    (s, Known(hostId, s[hostId].keyId, s[hostId].hostKey, None))
  }

  /** Whether @p key may be the one kept for this host. */
  predicate MayKeep(store: Store, hostId: string, key: string) {
    hostId in store && (store[hostId].hostKey == None || store[hostId].hostKey == Some(key))
  }

  function Kept(store: Store, hostId: string, key: string): Store
    requires MayKeep(store, hostId, key)
  {
    store[hostId := store[hostId].(hostKey := Some(key))]
  }

  /** The host signed, with the key it presents, this identity, this page's nonce and this fingerprint. */
  predicate Signed(id: Known, o: Offer, fingerprint: string, check: Check) {
    id.nonceB.Some? && check(o.hostKey, o.sig, HostDigestInput(id.hostId, id.keyId, id.nonceB.value, fingerprint)) == Some(true)
  }

  /** Everything an offer must be to be accepted. */
  predicate Acceptable(store: Store, id: Known, o: Offer, fingerprint: Option<string>, check: Check) {
    && o.sig != "" && o.nonce != "" && o.hostKey != "" && o.hostId == id.hostId
    && fingerprint.Some? && Signed(id, o, fingerprint.value, check)
    && if id.hostKey.Some? then id.hostKey.value == o.hostKey else MayKeep(store, id.hostId, o.hostKey)
  }

  // ----- The objects the source changes ---------------------------------------------------------

  class Database {
    var records: Store

    constructor (kept: Store)
      ensures records == kept
    {
      records := kept;
    }

    method RememberHostKey(hostId: string, key: string) returns (stored: bool)
      modifies this
      ensures stored <==> MayKeep(old(records), hostId, key)
      ensures records == if stored then Kept(old(records), hostId, key) else old(records)
    {
      if hostId !in records { return false; }
      var record := records[hostId];
      if record.hostKey.Some? && record.hostKey.value != key { return false; }
      records := records[hostId := record.(hostKey := Some(key))];
      return true;
    }

    method ForgetHost(hostId: string)
      modifies this
      ensures records == old(records) - {hostId}
    {
      records := records - {hostId};
    }
  }

  class Identity {
    const hostId: string
    const keyId: string
    var hostPublicKey: Option<string>
    var nonceB: Option<seq<byte>>

    constructor (hostId: string, record: Record)
      ensures Now() == Known(hostId, record.keyId, record.hostKey, None)
    {
      this.hostId, keyId, hostPublicKey, nonceB := hostId, record.keyId, record.hostKey, None;
    }

    function Now(): Known
      reads this
    {
      Known(hostId, keyId, hostPublicKey, nonceB)
    }

    method Hello(nonce: seq<byte>)
      modifies this
      ensures Now() == old(Now()).(nonceB := Some(nonce))
    {
      nonceB := Some(nonce);
    }

    /** Accepted exactly when acceptable; only an accepted offer changes anything, and then it pins its key. */
    method VerifyOffer(db: Database, o: Offer, check: Check) returns (verdict: Verdict)
      modifies this, db
      ensures verdict.Accepted? <==> Acceptable(old(db.records), old(Now()), o, Committed(o.sdp), check)
      ensures verdict.Accepted? <==>
              && o.sig != "" && o.nonce != "" && o.hostKey != "" && o.hostId == hostId
              && Committed(o.sdp).Some? && old(nonceB).Some?
              && check(o.hostKey, o.sig, HostDigestInput(hostId, keyId, old(nonceB).value, Committed(o.sdp).value)) == Some(true)
              && (old(hostPublicKey).Some? ==> old(hostPublicKey) == Some(o.hostKey))
              && (old(hostPublicKey).None? ==> hostId in old(db.records)
                                               && old(db.records)[hostId].hostKey in {None, Some(o.hostKey)})
      ensures verdict.Accepted? ==> verdict == Accepted(old(Now()).hostKey.None?, Committed(o.sdp).value)
      ensures Now() == if verdict.Accepted? then old(Now()).(hostKey := Some(o.hostKey)) else old(Now())
      ensures db.records == if verdict.Accepted? && old(Now()).hostKey.None?
                            then Kept(old(db.records), hostId, o.hostKey) else old(db.records)
      ensures verdict == Rejected(OtherKey) ==> old(Now()).hostKey.Some? && old(Now()).hostKey.value != o.hostKey
      ensures verdict == Rejected(NotStored) ==> !MayKeep(old(db.records), hostId, o.hostKey)
    {
      hide Committed, HostDigestInput, Unanimous, Sha256, Lines;
      if o.sig == "" || o.nonce == "" || o.hostKey == "" { return Rejected(Unsigned); }
      if o.hostId != hostId { return Rejected(OtherHost); }
      var fingerprint := ExtractFingerprint(o.sdp);
      if fingerprint.None? { return Rejected(NoFingerprint); }
      var firstContact := hostPublicKey.None?;
      if !firstContact && hostPublicKey.value != o.hostKey { return Rejected(OtherKey); }
      if nonceB.None? { return Rejected(Unusable); }
      var verified := check(o.hostKey, o.sig, HostDigestInput(hostId, keyId, nonceB.value, fingerprint.value));
      if verified.None? { return Rejected(Unusable); }
      if !verified.value { return Rejected(BadSignature); }
      if firstContact {
        var stored := db.RememberHostKey(hostId, o.hostKey);
        if !stored { return Rejected(NotStored); }
      }
      hostPublicKey := Some(o.hostKey);
      return Accepted(firstContact, fingerprint.value);
    }
  }

  method LoadIdentity(db: Database, hostId: string, newKeyId: string) returns (id: Identity)
    modifies db
    ensures fresh(id)
    ensures (db.records, id.Now()) == Loaded(old(db.records), hostId, newKeyId)
  {
    if hostId !in db.records {
      db.records := db.records[hostId := Record(newKeyId, None)];
    }
    id := new Identity(hostId, db.records[hostId]);
  }

  // ----- Runs over many pages -------------------------------------------------------------------

  /** Key @p key was pinned for @p host before the host was forgotten for the @p era-th time. */
  datatype Pin = Pin(host: string, era: nat, key: string)

  datatype Page = Page(id: Known, era: nat)

  datatype Acceptance = Acceptance(host: string, era: nat, key: string, keyId: string, nonceB: seq<byte>,
                                   sig: string, fingerprint: string)

  /** Pages are never closed; @p eras counts how often each host was forgotten. */
  datatype World = World(store: Store, pages: seq<Page>, eras: map<string, nat>, accepted: seq<Acceptance>)

  datatype Event =
    | Load(hostId: string, newKeyId: string)
    | Hello(page: nat, nonce: seq<byte>)
    | Offered(page: nat, offer: Offer)
    | Forget(hostId: string)

  function Era(w: World, host: string): nat {
    if host in w.eras then w.eras[host] else 0
  }

  function Opened(w: World, hostId: string, newKeyId: string): World {
    var (store, id) := Loaded(w.store, hostId, newKeyId);
    w.(store := store, pages := w.pages + [Page(id, Era(w, hostId))])
  }

  /** Page @p i takes @p key as its host's, in the era of that moment when it had none. */
  function Pinning(w: World, i: nat, key: string, nonce: seq<byte>, sig: string, fingerprint: string): World
    requires i < |w.pages| && (w.pages[i].id.hostKey.None? ==> MayKeep(w.store, w.pages[i].id.hostId, key))
  {
    var p := w.pages[i];
    var first := p.id.hostKey.None?;
    var era := if first then Era(w, p.id.hostId) else p.era;
    w.(store := if first then Kept(w.store, p.id.hostId, key) else w.store,
       pages := w.pages[i := Page(p.id.(hostKey := Some(key)), era)],
       accepted := w.accepted + [Acceptance(p.id.hostId, era, key, p.id.keyId, nonce, sig, fingerprint)])
  }

  ghost function AfterOffer(w: World, i: nat, o: Offer, check: Check): World
    requires i < |w.pages|
  {
    var id := w.pages[i].id;
    var fingerprint := Committed(o.sdp);
    if !Acceptable(w.store, id, o, fingerprint, check) then w
    else Pinning(w, i, o.hostKey, id.nonceB.value, o.sig, fingerprint.value)
  }

  ghost function Step(w: World, e: Event, check: Check): World {
    match e
    case Load(hostId, newKeyId) => Opened(w, hostId, newKeyId)
    case Hello(i, nonce) =>
      if i < |w.pages| then w.(pages := w.pages[i := w.pages[i].(id := w.pages[i].id.(nonceB := Some(nonce)))]) else w
    case Offered(i, o) => if i < |w.pages| then AfterOffer(w, i, o, check) else w
    case Forget(hostId) => w.(store := w.store - {hostId}, eras := w.eras[hostId := Era(w, hostId) + 1])
  }

  ghost function Run(w: World, es: seq<Event>, check: Check): World
    decreases |es|
  {
    if es == [] then w else Run(Step(w, es[0], check), es[1..], check)
  }

  /** A key someone relies on: the store, a page or an accepted offer. */
  ghost predicate Pinned(w: World, p: Pin) {
    || (p.host in w.store && w.store[p.host].hostKey == Some(p.key) && p.era == Era(w, p.host))
    || OnPage(w.pages, p)
    || InLog(w.accepted, p)
  }

  ghost predicate OnPage(pages: seq<Page>, p: Pin) {
    exists q :: q in pages && q.id.hostId == p.host && q.id.hostKey == Some(p.key) && q.era == p.era
  }

  ghost predicate InLog(accepted: seq<Acceptance>, p: Pin) {
    exists a :: a in accepted && a.host == p.host && a.key == p.key && a.era == p.era
  }

  /** Nothing is pinned in an era to come, and what is pinned in the present one the store has. */
  ghost predicate Backed(w: World) {
    forall p: Pin | Pinned(w, p) :: p.era <= Era(w, p.host)
      && (p.era == Era(w, p.host) ==> p.host in w.store && w.store[p.host].hostKey == Some(p.key))
  }

  ghost predicate OneKeyPerEra(w: World) {
    forall p: Pin, q: Pin | Pinned(w, p) && Pinned(w, q) && p.host == q.host && p.era == q.era :: p.key == q.key
  }

  ghost predicate Inv(w: World) {
    Backed(w) && OneKeyPerEra(w)
  }

  lemma LoadKeepsInv(w: World, hostId: string, newKeyId: string)
    requires Inv(w)
    ensures Inv(Opened(w, hostId, newKeyId))
  {
  }

  lemma HelloKeepsInv(w: World, i: nat, nonce: seq<byte>)
    requires Inv(w) && i < |w.pages|
    ensures Inv(w.(pages := w.pages[i := w.pages[i].(id := w.pages[i].id.(nonceB := Some(nonce)))]))
  {
  }

  lemma OfferKeepsInv(w: World, i: nat, o: Offer, check: Check)
    requires Inv(w) && i < |w.pages|
    ensures Inv(AfterOffer(w, i, o, check))
  {
    hide Inv, Pinning, Committed, Acceptable, MayKeep;
    if Acceptable(w.store, w.pages[i].id, o, Committed(o.sdp), check) {
      AcceptableMayPin(w.store, w.pages[i].id, o, Committed(o.sdp), check);
      PinningKeepsInv(w, i, o.hostKey, w.pages[i].id.nonceB.value, o.sig, Committed(o.sdp).value);
    }
  }

  lemma AcceptableMayPin(store: Store, id: Known, o: Offer, fingerprint: Option<string>, check: Check)
    requires Acceptable(store, id, o, fingerprint, check)
    ensures fingerprint.Some? && id.nonceB.Some?
    ensures if id.hostKey.Some? then id.hostKey.value == o.hostKey else MayKeep(store, id.hostId, o.hostKey)
  {
  }

  lemma PinningKeepsInv(w: World, i: nat, key: string, nonce: seq<byte>, sig: string, fingerprint: string)
    requires Inv(w) && i < |w.pages|
    requires var id := w.pages[i].id;
             if id.hostKey.Some? then id.hostKey.value == key else MayKeep(w.store, id.hostId, key)
    ensures Inv(Pinning(w, i, key, nonce, sig, fingerprint))
  {
    var v := Pinning(w, i, key, nonce, sig, fingerprint);
    var pin := Pin(w.pages[i].id.hostId, v.pages[i].era, key);
    forall p | OnPage(v.pages, p) ensures OnPage(w.pages, p) || p == pin {
      PageAfter(w.pages, i, v.pages[i], p);
    }
    forall p | InLog(v.accepted, p) ensures InLog(w.accepted, p) || p == pin {
    }
    assert w.pages[i].id.hostKey.Some? ==> Pinned(w, pin) by {
      assert w.pages[i] in w.pages;
    }
    hide Inv, OnPage, InLog;
    PinsKeepInv(w, v);
  }

  lemma PageAfter(pages: seq<Page>, i: nat, page: Page, p: Pin)
    requires i < |pages| && OnPage(pages[i := page], p)
    ensures OnPage(pages, p) || (page.id.hostId == p.host && page.id.hostKey == Some(p.key) && page.era == p.era)
  {
  }

  /** A step that pins nothing but, perhaps, a key the store now has for the present era keeps the invariant. */
  lemma PinsKeepInv(w: World, v: World)
    requires Inv(w)
    requires forall h :: Era(v, h) >= Era(w, h)
    requires forall h, k | h in w.store && w.store[h].hostKey == Some(k) && Era(v, h) == Era(w, h)
      :: h in v.store && v.store[h].hostKey == Some(k)
    requires forall p | Pinned(v, p) && !Pinned(w, p)
      :: p.era == Era(v, p.host) && p.host in v.store && v.store[p.host].hostKey == Some(p.key)
    ensures Inv(v)
  {
    hide Pinned, Era;
  }

  lemma ForgetKeepsInv(w: World, hostId: string)
    requires Inv(w)
    ensures Inv(w.(store := w.store - {hostId}, eras := w.eras[hostId := Era(w, hostId) + 1]))
  {
  }

  lemma StepKeepsInv(w: World, e: Event, check: Check)
    requires Inv(w)
    ensures Inv(Step(w, e, check))
  {
    hide Inv, AfterOffer, Opened;
    match e
    case Load(hostId, newKeyId) => LoadKeepsInv(w, hostId, newKeyId);
    case Hello(i, nonce) => if i < |w.pages| { HelloKeepsInv(w, i, nonce); }
    case Offered(i, o) => if i < |w.pages| { OfferKeepsInv(w, i, o, check); }
    case Forget(hostId) => ForgetKeepsInv(w, hostId);
  }

  lemma {:induction false} RunKeepsInv(w: World, es: seq<Event>, check: Check)
    requires Inv(w)
    ensures Inv(Run(w, es, check))
    decreases |es|
  {
    if es != [] {
      StepKeepsInv(w, es[0], check);
      RunKeepsInv(Step(w, es[0], check), es[1..], check);
    }
  }

  /** A browser with whatever its database kept, and no page yet. */
  function FirstVisit(store: Store): World {
    World(store, [], map[], [])
  }

  /** Between two times a host is forgotten, every offer of its that is accepted carries one key. */
  lemma OneKeyUntilForgotten(store: Store, es: seq<Event>, check: Check, i: nat, j: nat)
    requires var w := Run(FirstVisit(store), es, check);
             i < |w.accepted| && j < |w.accepted|
             && w.accepted[i].host == w.accepted[j].host && w.accepted[i].era == w.accepted[j].era
    ensures var w := Run(FirstVisit(store), es, check);
            w.accepted[i].key == w.accepted[j].key
  {
    RunKeepsInv(FirstVisit(store), es, check);
    var w := Run(FirstVisit(store), es, check);
    var a, b := w.accepted[i], w.accepted[j];
    assert Pinned(w, Pin(a.host, a.era, a.key)) && Pinned(w, Pin(b.host, b.era, b.key));
  }

  /** A key the database already had is the only one ever accepted until its host is forgotten. */
  lemma StoredKeyIsTheOnlyOne(store: Store, es: seq<Event>, check: Check, host: string, i: nat)
    requires host in store && store[host].hostKey.Some?
    requires Forget(host) !in es
    requires var w := Run(FirstVisit(store), es, check);
             i < |w.accepted| && w.accepted[i].host == host
    ensures Run(FirstVisit(store), es, check).accepted[i].key == store[host].hostKey.value
  {
    var v := FirstVisit(store);
    var w := Run(v, es, check);
    RunKeepsInv(v, es, check);
    StoreStays(v, es, check, host, store[host].hostKey.value);
    var a := w.accepted[i];
    assert a in w.accepted;
    assert Pinned(w, Pin(host, a.era, a.key));
    assert a.era == 0;
  }

  lemma {:induction false} StoreStays(w: World, es: seq<Event>, check: Check, host: string, key: string)
    requires host in w.store && w.store[host].hostKey == Some(key) && Forget(host) !in es
    ensures var v := Run(w, es, check);
            host in v.store && v.store[host].hostKey == Some(key) && Era(v, host) == Era(w, host)
    decreases |es|
  {
    if es != [] {
      StepKeepsStored(w, es[0], check, host, key);
      StoreStays(Step(w, es[0], check), es[1..], check, host, key);
    }
  }

  lemma StepKeepsStored(w: World, e: Event, check: Check, host: string, key: string)
    requires host in w.store && w.store[host].hostKey == Some(key) && e != Forget(host)
    ensures var v := Step(w, e, check);
            host in v.store && v.store[host].hostKey == Some(key) && Era(v, host) == Era(w, host)
  {
    if e.Offered? && e.page < |w.pages| {
      OfferKeepsStored(w, e.page, e.offer, check, host, key);
    }
    hide AfterOffer;
  }

  lemma OfferKeepsStored(w: World, i: nat, o: Offer, check: Check, host: string, key: string)
    requires i < |w.pages| && host in w.store && w.store[host].hostKey == Some(key)
    ensures var v := AfterOffer(w, i, o, check);
            host in v.store && v.store[host].hostKey == Some(key) && Era(v, host) == Era(w, host)
  {
    hide Committed, Acceptable, Pinning, MayKeep;
    if Acceptable(w.store, w.pages[i].id, o, Committed(o.sdp), check) {
      AcceptableMayPin(w.store, w.pages[i].id, o, Committed(o.sdp), check);
      PinningKeepsStored(w, i, o.hostKey, w.pages[i].id.nonceB.value, o.sig, Committed(o.sdp).value, host, key);
    }
  }

  lemma PinningKeepsStored(w: World, i: nat, pinned: string, nonce: seq<byte>, sig: string, fingerprint: string,
                           host: string, key: string)
    requires i < |w.pages| && (w.pages[i].id.hostKey.None? ==> MayKeep(w.store, w.pages[i].id.hostId, pinned))
    requires host in w.store && w.store[host].hostKey == Some(key)
    ensures var v := Pinning(w, i, pinned, nonce, sig, fingerprint);
            host in v.store && v.store[host].hostKey == Some(key) && Era(v, host) == Era(w, host)
  {
  }

  lemma {:induction false} RunOfThree(w: World, a: Event, b: Event, c: Event, check: Check)
    ensures Run(w, [a, b, c], check) == Step(Step(Step(w, a, check), b, check), c, check)
  {
    hide Step;
    var w1 := Step(w, a, check);
    assert [a, b, c][1..] == [b, c] && [b, c][1..] == [c] && [c][1..] == [];
    assert Run(w1, [b, c], check) == Run(Step(w1, b, check), [c], check);
  }

  lemma GreetedPage(w: World, host: string, keyId: string, nonce: seq<byte>, check: Check)
    requires host !in w.store
    ensures var v := Step(Step(w, Load(host, keyId), check), Hello(|w.pages|, nonce), check);
            && v.store == w.store[host := Record(keyId, None)] && v.accepted == w.accepted && v.eras == w.eras
            && v.pages == w.pages + [Page(Known(host, keyId, None, Some(nonce)), Era(w, host))]
  {
  }

  lemma FirstOfferPins(w: World, i: nat, o: Offer, check: Check)
    requires i < |w.pages| && w.pages[i].id.hostKey.None? && w.pages[i].id.nonceB.Some?
    requires var id := w.pages[i].id;
             && o.hostId == id.hostId && o.sig != "" && o.nonce != "" && o.hostKey != "" && Committed(o.sdp).Some?
             && id.hostId in w.store && w.store[id.hostId].hostKey.None?
             && check(o.hostKey, o.sig, HostDigestInput(id.hostId, id.keyId, id.nonceB.value, Committed(o.sdp).value)) == Some(true)
    ensures var id := w.pages[i].id;
            var v := Step(w, Offered(i, o), check);
            && v.accepted == w.accepted + [Acceptance(id.hostId, Era(w, id.hostId), o.hostKey, id.keyId, id.nonceB.value,
                                                      o.sig, Committed(o.sdp).value)]
            && v.store == w.store[id.hostId := w.store[id.hostId].(hostKey := Some(o.hostKey))]
  {
    hide HostDigestInput, Committed, Era;
  }

  /**
   First contact: a host the database does not know, a page that loads it and says hello, and an offer that is
   signed for that hello, is accepted, and its key is the one kept.
   */
  lemma FirstContactIsAccepted(w: World, host: string, keyId: string, nonce: seq<byte>, o: Offer, check: Check)
    requires host !in w.store && o.hostId == host && o.sig != "" && o.nonce != "" && o.hostKey != ""
    requires Committed(o.sdp).Some?
    requires check(o.hostKey, o.sig, HostDigestInput(host, keyId, nonce, Committed(o.sdp).value)) == Some(true)
    ensures var i := |w.pages|;
            var v := Run(w, [Load(host, keyId), Hello(i, nonce), Offered(i, o)], check);
            && v.accepted == w.accepted + [Acceptance(host, Era(w, host), o.hostKey, keyId, nonce, o.sig, Committed(o.sdp).value)]
            && host in v.store && v.store[host] == Record(keyId, Some(o.hostKey))
  {
    hide HostDigestInput, Committed, Step, Run;
    var i := |w.pages|;
    RunOfThree(w, Load(host, keyId), Hello(i, nonce), Offered(i, o), check);
    GreetedPage(w, host, keyId, nonce, check);
    FirstOfferPins(Step(Step(w, Load(host, keyId), check), Hello(i, nonce), check), i, o, check);
  }

  // ----- What a signature is worth --------------------------------------------------------------

  /** @p check accepts a signature for one message only. */
  ghost predicate SignsOneMessage(check: Check) {
    forall key, sig, m, m' :: check(key, sig, m) == Some(true) && check(key, sig, m') == Some(true) ==> m == m'
  }

  predicate Fits(id: Known, fingerprint: string) {
    |Utf8(id.hostId)| < WORD && |Utf8(id.keyId)| < WORD && |Utf8(fingerprint)| < WORD
    && (id.nonceB.Some? ==> |id.nonceB.value| < WORD)
  }

  /** A signature accepted twice was for the same host, the same browser key, the same hello and the same fingerprint. */
  lemma ReplayIsForTheSameHello(check: Check, store: Store, id: Known, o: Offer, store': Store, id': Known, o': Offer)
    requires SignsOneMessage(check)
    requires Acceptable(store, id, o, Committed(o.sdp), check) && Acceptable(store', id', o', Committed(o'.sdp), check)
    requires o.sig == o'.sig && o.hostKey == o'.hostKey
    requires Fits(id, Committed(o.sdp).value) && Fits(id', Committed(o'.sdp).value)
    ensures id.hostId == id'.hostId && id.keyId == id'.keyId && id.nonceB == id'.nonceB
    ensures Committed(o.sdp) == Committed(o'.sdp)
  {
    hide HostDigestInput, Committed;
    var f, f' := Committed(o.sdp).value, Committed(o'.sdp).value;
    HostMessageBinds(id.hostId, id.keyId, id.nonceB.value, f, id'.hostId, id'.keyId, id'.nonceB.value, f');
  }
}
