/** Signed envelopes. */
module Identity {
  import opened Prelude
  import opened Json
  import opened JsonRoundTrip
  import opened JsonCanonical

  newtype byte = x: int | 0 <= x < 256

  type Bytes = seq<byte>

  /** What the program takes from its libraries and its interpreter.  What is
      proved holds for any of them.  `overflows` tells the lines too deeply nested
      for the JSON code, which then raises RecursionError. */
  datatype Platform = Platform(
    toHex: Bytes -> string,
    fromHex: string -> Option<Bytes>,
    digest: Bytes -> string,
    publicKey: Bytes -> Bytes,
    sign: (Bytes, string) -> Bytes,
    verifies: (Bytes, string, Bytes) -> bool,
    overflows: Bytes -> bool)

  ghost predicate Correct(c: Platform) {
    && (forall b :: c.fromHex(c.toHex(b)) == Some(b))
    && (forall k, m :: c.verifies(c.publicKey(k), m, c.sign(k, m)))
  }

  function PeerIdOf(c: Platform, key: Bytes): string {
    c.digest(c.publicKey(key))
  }

  function Payload(msgType: string, sender: string, ts: int, body: Json): Json {
    Obj([("type", Str(msgType)), ("sender", Str(sender)), ("ts", Int(ts)), ("body", body)])
  }

  function Seal(c: Platform, key: Bytes, msgType: string, ts: int, body: Json): Json {
    var payload := Payload(msgType, PeerIdOf(c, key), ts, body);
    Obj([("v", Int(1)), ("payload", payload),
         ("pubkey", Str(c.toHex(c.publicKey(key)))),
         ("sig", Str(c.toHex(c.sign(key, Canonical(payload)))))])
  }

  datatype EnvelopeError = Malformed | SenderMismatch | BadSignature

  function HexField(c: Platform, v: Json, k: string): Option<Bytes> {
    var f := Get(v, k);
    if f.Some? && f.value.Str? then c.fromHex(f.value.s) else None
  }

  /** The sender and payload of an envelope that verifies. */
  function Open(c: Platform, env: Json): Result<(string, Json), EnvelopeError> {
    var payload, pubkey, sig := Get(env, "payload"), HexField(c, env, "pubkey"), HexField(c, env, "sig");
    if payload == None || pubkey == None || sig == None then Failure(Malformed)
    else
      var sender, msgType := Get(payload.value, "sender"), Get(payload.value, "type");
      if sender == None || msgType == None || !sender.value.Str? || !msgType.value.Str? then Failure(Malformed)
      else if c.digest(pubkey.value) != sender.value.s then Failure(SenderMismatch)
      else if !c.verifies(pubkey.value, Canonical(payload.value), sig.value) then Failure(BadSignature)
      else Success((sender.value.s, payload.value))
  }

  /** In this traffic no other key has the id of `key`, and what verifies under
      `key` is the signing text of a payload in `sealed`.  Nothing is said of
      signatures that nobody produced. */
  ghost predicate NoForgery(c: Platform, key: Bytes, sealed: iset<Json>, traffic: iset<Json>) {
    forall env :: env in traffic ==>
      var payload, pubkey, sig := Get(env, "payload"), HexField(c, env, "pubkey"), HexField(c, env, "sig");
      && (pubkey.Some? && c.digest(pubkey.value) == PeerIdOf(c, key) ==> pubkey.value == c.publicKey(key))
      && (payload.Some? && sig.Some? && c.verifies(c.publicKey(key), Canonical(payload.value), sig.value) ==>
            exists p :: p in sealed && WellFormed(p) && Canonical(p) == Canonical(payload.value))
  }

  lemma FieldAt(ms: Members, i: nat)
    requires DistinctKeys(ms) && i < |ms|
    ensures Get(Obj(ms), ms[i].0) == Some(ms[i].1)
  {
    FindAt(ms, i);
  }

  lemma FourMembers(ms: Members)
    requires |ms| == 4
    requires ms[0].0 != ms[1].0 && ms[0].0 != ms[2].0 && ms[0].0 != ms[3].0
    requires ms[1].0 != ms[2].0 && ms[1].0 != ms[3].0 && ms[2].0 != ms[3].0
    ensures Get(Obj(ms), ms[0].0) == Some(ms[0].1) && Get(Obj(ms), ms[1].0) == Some(ms[1].1)
    ensures Get(Obj(ms), ms[2].0) == Some(ms[2].1) && Get(Obj(ms), ms[3].0) == Some(ms[3].1)
    ensures WellFormed(ms[0].1) && WellFormed(ms[1].1) && WellFormed(ms[2].1) && WellFormed(ms[3].1) ==> WellFormed(Obj(ms))
  {
    hide Find, Get;
    forall i, j | 0 <= i < j < |ms| ensures ms[i].0 != ms[j].0 {
      assert i == 0 || i == 1 || i == 2;
      assert j == 1 || j == 2 || j == 3;
    }
    FieldAt(ms, 0);
    FieldAt(ms, 1);
    FieldAt(ms, 2);
    FieldAt(ms, 3);
  }

  lemma SealShape(c: Platform, key: Bytes, msgType: string, ts: int, body: Json)
    ensures var env, payload := Seal(c, key, msgType, ts, body), Payload(msgType, PeerIdOf(c, key), ts, body);
      && env.Obj?
      && (WellFormed(body) ==> WellFormed(env))
      && Get(env, "payload") == Some(payload)
      && Get(env, "pubkey") == Some(Str(c.toHex(c.publicKey(key))))
      && Get(env, "sig") == Some(Str(c.toHex(c.sign(key, Canonical(payload)))))
      && Get(payload, "sender") == Some(Str(PeerIdOf(c, key)))
      && Get(payload, "type") == Some(Str(msgType))
      && Get(payload, "body") == Some(body)
  {
    hide Get, WellFormed, Canonical;
    var payload := Payload(msgType, PeerIdOf(c, key), ts, body);
    assert "type" != "sender" && "type" != "ts" && "type" != "body" && "sender" != "ts" && "sender" != "body" && "ts" != "body" by {
      assert "type"[0] == 't' && "body"[0] == 'b';
    }
    assert "v" != "payload" && "v" != "pubkey" && "v" != "sig" && "payload" != "pubkey" && "payload" != "sig" && "pubkey" != "sig";
    FourMembers(payload.members);
    FourMembers(Seal(c, key, msgType, ts, body).members);
    LeavesWellFormed(c, key, payload, msgType, ts);
  }

  lemma LeavesWellFormed(c: Platform, key: Bytes, payload: Json, msgType: string, ts: int)
    ensures WellFormed(Int(1)) && WellFormed(Int(ts)) && forall s :: WellFormed(Str(s))
  {
  }

  /** `open` accepts what `seal` made, after any trip over the wire: the decoded
      envelope yields the sealer's id and the payload it sealed. */
  lemma SealedOpens(c: Platform, key: Bytes, msgType: string, ts: int, body: Json, blanks: string)
    requires Correct(c) && WellFormed(body) && Skip(blanks) == [] && Ends(blanks)
    ensures var arrived := Loads(Dumps(Seal(c, key, msgType, ts, body)) + blanks);
      && arrived.Some?
      && Open(c, arrived.value)
         == Success((PeerIdOf(c, key), Payload(msgType, PeerIdOf(c, key), ts, body)))
  {
    hide Get, WellFormed, Canonical, Text, Loads, Skip, Seal, Payload;
    SealShape(c, key, msgType, ts, body);
    LoadsText(Seal(c, key, msgType, ts, body), SPACED, blanks);
  }

  /** Traffic of the key's own envelopes is free of forgery, so the premise of
      what follows can be met together with `Correct`. */
  lemma OwnTraffic(c: Platform, key: Bytes, sealed: iset<Json>, traffic: iset<Json>)
    requires Correct(c)
    requires forall env :: env in traffic ==> exists msgType, ts, body ::
      env == Seal(c, key, msgType, ts, body) && WellFormed(body) && Payload(msgType, PeerIdOf(c, key), ts, body) in sealed
    ensures NoForgery(c, key, sealed, traffic)
  {
    hide Get, WellFormed, Canonical, Seal, Payload;
    forall env | env in traffic
      ensures var pubkey := HexField(c, env, "pubkey"); pubkey == Some(c.publicKey(key))
      ensures var payload := Get(env, "payload"); payload.Some? && payload.value in sealed && WellFormed(payload.value)
    {
      var msgType, ts, body :| env == Seal(c, key, msgType, ts, body) && WellFormed(body)
                               && Payload(msgType, PeerIdOf(c, key), ts, body) in sealed;
      SealShape(c, key, msgType, ts, body);
      PartsAreWellFormed(env, "payload");
    }
  }

  // ---- what decoding guarantees

  lemma PutKeepsDistinct(ms: Members, k: string, v: Json)
    requires DistinctKeys(ms) && (forall i :: 0 <= i < |ms| ==> WellFormed(ms[i].1)) && WellFormed(v)
    ensures var n := Put(ms, k, v); DistinctKeys(n) && forall i :: 0 <= i < |n| ==> WellFormed(n[i].1)
  {
    hide WellFormed;
  }

  lemma {:induction false} ParsedIsWellFormed(s: string)
    ensures Parse(s).Some? ==> WellFormed(Parse(s).value.0)
    decreases |s|, 0
  {
    hide Body, Number, ParseItems, ParseMembers;
    if s != [] && s[0] == '{' {
      ParsedMembersAreWellFormed(Skip(s[1..]), []);
    } else if s != [] && s[0] == '[' {
      ParsedItemsAreWellFormed(Skip(s[1..]), []);
    }
  }

  lemma {:induction false} ParsedItemsAreWellFormed(s: string, done: seq<Json>)
    requires forall i :: 0 <= i < |done| ==> WellFormed(done[i])
    ensures ParseItems(s, done).Some? ==> WellFormed(ParseItems(s, done).value.0)
    decreases |s|, 1
  {
    hide Parse;
    ParsedIsWellFormed(s);
    if ParseItems(s, done).Some? {
      var (v, rest) := Parse(s).value;
      var t := Skip(rest);
      if t[0] == ',' {
        ParsedItemsAreWellFormed(Skip(t[1..]), done + [v]);
      }
    }
  }

  lemma {:induction false} ParsedMembersAreWellFormed(s: string, done: Members)
    requires DistinctKeys(done) && forall i :: 0 <= i < |done| ==> WellFormed(done[i].1)
    ensures ParseMembers(s, done).Some? ==> WellFormed(ParseMembers(s, done).value.0)
    decreases |s|, 1
  {
    hide Parse, Body, Put;
    if ParseMembers(s, done).Some? {
      var (k, rest) := Body(s[1..]).value;
      var w := Skip(Skip(rest)[1..]);
      ParsedIsWellFormed(w);
      var (v, rest') := Parse(w).value;
      PutKeepsDistinct(done, k, v);
      var u := Skip(rest');
      if u[0] == ',' {
        ParsedMembersAreWellFormed(Skip(u[1..]), Put(done, k, v));
      }
    }
  }

  lemma SameFields(v: Json, w: Json, k: string)
    requires v.Obj? && Same(v, w) && DistinctKeys(v.members)
    ensures Get(v, k).Some? <==> Get(w, k).Some?
    ensures Get(v, k).Some? ==> Same(Get(v, k).value, Get(w, k).value)
  {
    assert k in Keys(v.members) <==> k in Keys(w.members);
  }

  lemma LoadsIsWellFormed(s: string)
    ensures Loads(s).Some? ==> WellFormed(Loads(s).value)
  {
    ParsedIsWellFormed(Skip(s));
  }

  /** Nothing enters unsealed: whatever opens under an honest key's id is a payload
      that key sealed, up to member order, with the same type and sender. */
  lemma OpenedWasSealed(c: Platform, key: Bytes, sealed: iset<Json>, traffic: iset<Json>,
                        env: Json, sender: string, payload: Json)
    requires NoForgery(c, key, sealed, traffic) && env in traffic
    requires WellFormed(env) && Open(c, env) == Success((sender, payload))
    requires sender == PeerIdOf(c, key)
    ensures exists p :: p in sealed && WellFormed(p) && Same(p, payload)
                        && Get(p, "type") == Get(payload, "type") && Get(p, "sender") == Some(Str(sender))
  {
    hide Same, Canonical;
    PartsAreWellFormed(env, "payload");
    var pubkey, sig := HexField(c, env, "pubkey").value, HexField(c, env, "sig").value;
    assert pubkey == c.publicKey(key);
    assert c.verifies(c.publicKey(key), Canonical(payload), sig);
    var p :| p in sealed && WellFormed(p) && Canonical(payload) == Canonical(p);
    CanonicalIffSame(p, payload);
    CanonicalIffSame(payload, p);
    OnlyObjectsHaveFields(payload, p);
    SameFields(payload, p, "type");
    SameFields(payload, p, "sender");
    SameStrings(Get(payload, "type").value, Get(p, "type").value);
    SameStrings(Get(payload, "sender").value, Get(p, "sender").value);
  }

  lemma PartsAreWellFormed(v: Json, k: string)
    requires WellFormed(v)
    ensures Get(v, k).Some? ==> WellFormed(Get(v, k).value)
  {
  }

  lemma SameStrings(v: Json, w: Json)
    requires Same(v, w) && v.Str?
    ensures v == w
  {
  }

  lemma OnlyObjectsHaveFields(v: Json, w: Json)
    requires Same(v, w)
    ensures v.Obj? <==> w.Obj?
    ensures Get(v, "type").Some? ==> v.Obj?
    ensures WellFormed(v) && v.Obj? ==> DistinctKeys(v.members)
  {
  }
}
