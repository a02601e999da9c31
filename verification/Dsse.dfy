/**
 Signed envelopes (internal/provenance/envelope.go): the pre-authentication
 encoding of DSSE and threshold verification.  The signature scheme, key
 identifiers, base64 and JSON canonicalisation are parameters.
 */
module Dsse {
  import opened Common
  import Decimal

  const VERSION := "dsse-envelope-v1"
  const SIGNATURE_SIZE := 64
  const KEY_SIZE := 32
  const SPACE: Byte := 32

  // ----- the pre-authentication encoding

  /** The bytes of a decimal numeral. */
  function Numeral(n: nat): (b: Bytes)
    ensures b != [] && forall i :: 0 <= i < |b| ==> b[i] != SPACE
  {
    var s := Decimal.Digits(n);
    seq(|s|, i requires 0 <= i < |s| => assert Decimal.IsDigit(s[i]); s[i] as int)
  }

  /** ASCII "DSSEv1 ". */
  const PREAMBLE: Bytes := [68, 83, 83, 69, 118, 49, 32]

  function Pae(payloadType: Bytes, payload: Bytes): Bytes
  {
    PREAMBLE + (Numeral(|payloadType|) + [SPACE] + (payloadType + ([SPACE] + (Numeral(|payload|) + [SPACE] + payload))))
  }

  lemma NumeralInjective(m: nat, n: nat)
    requires Numeral(m) == Numeral(n)
    ensures m == n
  {
    var a, b := Decimal.Digits(m), Decimal.Digits(n);
    assert |a| == |Numeral(m)| == |Numeral(n)| == |b|;
    forall i | 0 <= i < |a| ensures a[i] == b[i] {
      assert Numeral(m)[i] == a[i] as int && Numeral(n)[i] == b[i] as int;
    }
    assert a == b;
    Decimal.ValueOfDigits(m);
    Decimal.ValueOfDigits(n);
  }

  /** The first space splits in one way only. */
  lemma SplitAtSpace(a: Bytes, x: Bytes, b: Bytes, y: Bytes)
    requires SPACE !in a && SPACE !in b && a + [SPACE] + x == b + [SPACE] + y
    ensures a == b && x == y
  {
    var s := a + [SPACE] + x;
    assert s[|a|] == SPACE && s[|b|] == SPACE;
    assert |a| == |b|;
    assert a == s[..|a|] && b == s[..|a|] && x == s[|a| + 1..] && y == s[|a| + 1..];
  }

  lemma SplitAtLength(a: Bytes, x: Bytes, b: Bytes, y: Bytes)
    requires |a| == |b| && a + x == b + y
    ensures a == b && x == y
  {
    var s := a + x;
    assert a == s[..|a|] && b == s[..|a|] && x == s[|a|..] && y == s[|a|..];
  }

  /** Different pairs have different encodings, for all byte strings. */
  lemma PaeInjective(t: Bytes, p: Bytes, u: Bytes, q: Bytes)
    requires Pae(t, p) == Pae(u, q)
    ensures t == u && p == q
  {
    hide Numeral;
    var restT, restU := Numeral(|p|) + [SPACE] + p, Numeral(|q|) + [SPACE] + q;
    var tailT, tailU := t + ([SPACE] + restT), u + ([SPACE] + restU);
    SplitAtLength(PREAMBLE, Numeral(|t|) + [SPACE] + tailT, PREAMBLE, Numeral(|u|) + [SPACE] + tailU);
    SplitAtSpace(Numeral(|t|), tailT, Numeral(|u|), tailU);
    NumeralInjective(|t|, |u|);
    SplitAtLength(t, [SPACE] + restT, u, [SPACE] + restU);
    SplitAtLength([SPACE], restT, [SPACE], restU);
    SplitAtSpace(Numeral(|p|), p, Numeral(|q|), q);
  }

  // ----- envelopes

  datatype Signature = Signature(keyId: string, sig: string)

  datatype Envelope = Envelope(version: string, payloadType: Bytes, payload: string, signatures: seq<Signature>)

  datatype Scheme = Scheme(
    sign: (Bytes, Bytes) -> Bytes,
    publicKey: Bytes -> Bytes,
    validPrivate: Bytes -> bool,
    verify: (Bytes, Bytes, Bytes) -> bool,
    keyId: Bytes -> string,
    encode64: Bytes -> string,
    decode64: string -> Option<Bytes>,
    canonicalize: Bytes -> Option<Bytes>)

  /** decodeEnvelope: the canonical statement, or nothing. */
  function Statement(k: Scheme, e: Envelope): Option<Bytes>
  {
    if e.version != VERSION || e.payloadType == [] || e.payload == "" || e.signatures == [] then None
    else
      var statement := k.decode64(e.payload);
      if statement.Some? && k.canonicalize(statement.value) == statement then statement else None
  }

  predicate WellFormed(k: Scheme, s: Signature)
  {
    k.decode64(s.sig).Some? && |k.decode64(s.sig).value| == SIGNATURE_SIZE
  }

  /** A signature by a trusted key that verifies over this message. */
  predicate Vouches(k: Scheme, s: Signature, trusted: map<string, Bytes>, message: Bytes)
  {
    && WellFormed(k, s) && s.keyId in trusted
    && |trusted[s.keyId]| == KEY_SIZE && k.keyId(trusted[s.keyId]) == s.keyId
    && k.verify(trusted[s.keyId], message, k.decode64(s.sig).value)
  }

  /** The trusted key identifiers among some signatures. */
  function Signers(signatures: seq<Signature>, trusted: map<string, Bytes>): set<string>
  {
    set i | 0 <= i < |signatures| && signatures[i].keyId in trusted :: signatures[i].keyId
  }

  ghost predicate OneEach(signatures: seq<Signature>)
  {
    forall i, j :: 0 <= i < j < |signatures| ==> signatures[i].keyId != signatures[j].keyId
  }

  /** No signature is malformed, and every trusted one vouches. */
  ghost predicate Clean(k: Scheme, signatures: seq<Signature>, trusted: map<string, Bytes>, message: Bytes)
  {
    forall i :: 0 <= i < |signatures| ==>
      WellFormed(k, signatures[i]) && (signatures[i].keyId in trusted ==> Vouches(k, signatures[i], trusted, message))
  }

  /** Exactly the envelopes that verification accepts. */
  ghost predicate Accepts(k: Scheme, e: Envelope, trusted: map<string, Bytes>, threshold: int)
  {
    && threshold >= 1 && Statement(k, e).Some? && OneEach(e.signatures)
    && Clean(k, e.signatures, trusted, Pae(e.payloadType, Statement(k, e).value))
    && |Signers(e.signatures, trusted)| >= threshold
  }

  /** Acceptance, spelled out: version and payload readable, every key once, every signature 64 bytes, and every
      trusted one by a 32-byte key listed under its own identifier and verifying; at least threshold of those. */
  lemma AcceptsIff(k: Scheme, e: Envelope, trusted: map<string, Bytes>, threshold: int)
    ensures Accepts(k, e, trusted, threshold) <==>
            && threshold >= 1 && Statement(k, e).Some? && OneEach(e.signatures)
            && (forall i :: 0 <= i < |e.signatures| ==>
                  var s := e.signatures[i];
                  && k.decode64(s.sig).Some? && |k.decode64(s.sig).value| == 64
                  && (s.keyId in trusted ==>
                        && |trusted[s.keyId]| == 32 && k.keyId(trusted[s.keyId]) == s.keyId
                        && k.verify(trusted[s.keyId], Pae(e.payloadType, Statement(k, e).value), k.decode64(s.sig).value)))
            && |Signers(e.signatures, trusted)| >= threshold
    ensures forall statement :: Statement(k, e) == Some(statement) <==>
              && e.version == VERSION && e.payloadType != [] && e.payload != "" && e.signatures != []
              && k.decode64(e.payload) == Some(statement) && k.canonicalize(statement) == Some(statement)
  {
    hide Pae, Signers, OneEach;
    if Statement(k, e).Some? {
      var message := Pae(e.payloadType, Statement(k, e).value);
      CleanIff(k, e.signatures, trusted, message);
    }
  }

  lemma CleanIff(k: Scheme, signatures: seq<Signature>, trusted: map<string, Bytes>, message: Bytes)
    ensures Clean(k, signatures, trusted, message) <==>
            forall i :: 0 <= i < |signatures| ==>
              var s := signatures[i];
              && k.decode64(s.sig).Some? && |k.decode64(s.sig).value| == 64
              && (s.keyId in trusted ==>
                    && |trusted[s.keyId]| == 32 && k.keyId(trusted[s.keyId]) == s.keyId
                    && k.verify(trusted[s.keyId], message, k.decode64(s.sig).value))
  {
  }

  lemma SignersSnoc(signatures: seq<Signature>, s: Signature, trusted: map<string, Bytes>)
    ensures Signers(signatures + [s], trusted) == Signers(signatures, trusted) + if s.keyId in trusted then {s.keyId} else {}
  {
    var longer := signatures + [s];
    assert longer[|signatures|] == s && forall i :: 0 <= i < |signatures| ==> longer[i] == signatures[i];
    forall id | id in Signers(signatures, trusted) ensures id in Signers(longer, trusted) {
      var i :| 0 <= i < |signatures| && signatures[i].keyId in trusted && signatures[i].keyId == id;
      assert longer[i].keyId == id;
    }
    if s.keyId in trusted { assert longer[|signatures|].keyId in Signers(longer, trusted); }
  }

  lemma OneEachSnoc(signatures: seq<Signature>, i: nat)
    requires i < |signatures|
    ensures OneEach(signatures[..i + 1]) <==> OneEach(signatures[..i]) && !HasSigner(signatures[..i], signatures[i].keyId)
    ensures OneEach(signatures) ==> OneEach(signatures[..i + 1])
    ensures forall id :: HasSigner(signatures[..i + 1], id) <==> HasSigner(signatures[..i], id) || id == signatures[i].keyId
  {
    var shorter, longer := signatures[..i], signatures[..i + 1];
    assert longer[i] == signatures[i] && forall j :: 0 <= j < i ==> longer[j] == shorter[j];
    forall id | HasSigner(shorter, id) ensures HasSigner(longer, id) {
      var j :| 0 <= j < |shorter| && shorter[j].keyId == id;
      assert longer[j].keyId == id;
    }
  }

  lemma CleanSnoc(k: Scheme, signatures: seq<Signature>, i: nat, trusted: map<string, Bytes>, message: Bytes)
    requires i < |signatures|
    ensures Clean(k, signatures[..i + 1], trusted, message) <==>
            && Clean(k, signatures[..i], trusted, message) && WellFormed(k, signatures[i])
            && (signatures[i].keyId in trusted ==> Vouches(k, signatures[i], trusted, message))
    ensures Clean(k, signatures, trusted, message) ==> Clean(k, signatures[..i + 1], trusted, message)
  {
    hide WellFormed, Vouches;
    var shorter, longer := signatures[..i], signatures[..i + 1];
    assert longer[i] == signatures[i] && forall j :: 0 <= j < i ==> longer[j] == shorter[j];
  }

  lemma Nothing(k: Scheme, trusted: map<string, Bytes>, message: Bytes)
    ensures OneEach([]) && Clean(k, [], trusted, message) && forall id :: !HasSigner([], id)
  {
  }

  /** The signature loop: the number of valid trusted signatures, or nothing at the first bad one. */
  method CountValid(k: Scheme, signatures: seq<Signature>, trusted: map<string, Bytes>, message: Bytes) returns (valid: Option<nat>)
    ensures valid.Some? <==> OneEach(signatures) && Clean(k, signatures, trusted, message)
    ensures valid.Some? ==> valid.value == |Signers(signatures, trusted)|
  {
    hide Signers, Vouches, WellFormed, OneEach, Clean, HasSigner;
    var seen: set<string> := {};
    var count := 0;
    NoSigners(trusted);
    Nothing(k, trusted, message);
    for i := 0 to |signatures|
      invariant forall id :: id in seen <==> HasSigner(signatures[..i], id)
      invariant OneEach(signatures[..i]) && Clean(k, signatures[..i], trusted, message)
      invariant count == |Signers(signatures[..i], trusted)| && Signers(signatures[..i], trusted) <= seen
    {
      var s := signatures[i];
      assert signatures[..i + 1] == signatures[..i] + [s];
      OneEachSnoc(signatures, i);
      CleanSnoc(k, signatures, i, trusted, message);
      if s.keyId in seen { return None; }
      seen := seen + {s.keyId};
      SignersSnoc(signatures[..i], s, trusted);
      var decoded := Accepted(k, s);
      if !decoded { return None; }
      if s.keyId in trusted {
        var good := Checks(k, s, trusted, message);
        if !good { return None; }
        count := count + 1;
      }
    }
    assert signatures[..|signatures|] == signatures;
    valid := Some(count);
  }

  method Verify(k: Scheme, e: Envelope, trusted: map<string, Bytes>, threshold: int) returns (r: Option<Bytes>)
    ensures r.Some? <==> Accepts(k, e, trusted, threshold)
    ensures r.Some? ==> r == Statement(k, e)
  {
    hide Pae, Signers, Statement, OneEach, Clean;
    if threshold < 1 { return None; }
    var statement := Statement(k, e);
    if statement.None? { return None; }
    var valid := CountValid(k, e.signatures, trusted, Pae(e.payloadType, statement.value));
    if valid.None? || valid.value < threshold { return None; }
    r := statement;
  }

  lemma NoSigners(trusted: map<string, Bytes>)
    ensures Signers([], trusted) == {}
  {
  }

  method Accepted(k: Scheme, s: Signature) returns (ok: bool)
    ensures ok <==> WellFormed(k, s)
  {
    var decoded := k.decode64(s.sig);
    ok := decoded.Some? && |decoded.value| == SIGNATURE_SIZE;
  }

  method Checks(k: Scheme, s: Signature, trusted: map<string, Bytes>, message: Bytes) returns (ok: bool)
    requires WellFormed(k, s) && s.keyId in trusted
    ensures ok <==> Vouches(k, s, trusted, message)
  {
    var key := trusted[s.keyId];
    if |key| != KEY_SIZE || k.keyId(key) != s.keyId { return false; }
    ok := k.verify(key, message, k.decode64(s.sig).value);
  }

  // ----- what acceptance proves

  /** A signing key signed this exact payload type and payload. */
  datatype Signing = Signing(key: Bytes, payloadType: Bytes, payload: Bytes)

  /** The envelope's own message: what its signatures are checked against. */
  function Message(k: Scheme, e: Envelope): Bytes
    requires Statement(k, e).Some?
  {
    Pae(e.payloadType, Statement(k, e).value)
  }

  /**
   No signature in the envelope is forged: one that verifies over the envelope's
   message under a trusted key was made by that key's holder, for some payload
   type and payload with this encoding.
   */
  ghost predicate Unforged(k: Scheme, e: Envelope, trusted: map<string, Bytes>, signed: set<Signing>)
    requires Statement(k, e).Some?
  {
    forall i :: 0 <= i < |e.signatures| && Vouches(k, e.signatures[i], trusted, Message(k, e)) ==>
      MadeBy(signed, trusted[e.signatures[i].keyId], Message(k, e))
  }

  /** The key signed something with this encoding. */
  ghost predicate MadeBy(signed: set<Signing>, key: Bytes, message: Bytes)
  {
    exists s :: s in signed && s.key == key && message == Pae(s.payloadType, s.payload)
  }

  /** The trusted keys behind some identifiers. */
  function KeysOf(ids: set<string>, trusted: map<string, Bytes>): set<Bytes>
  {
    set id | id in ids && id in trusted :: trusted[id]
  }

  lemma MadeIsSigned(signed: set<Signing>, key: Bytes, payloadType: Bytes, payload: Bytes)
    requires MadeBy(signed, key, Pae(payloadType, payload))
    ensures Signing(key, payloadType, payload) in signed
  {
    hide Pae;
    var one :| one in signed && one.key == key && Pae(payloadType, payload) == Pae(one.payloadType, one.payload);
    PaeInjective(payloadType, payload, one.payloadType, one.payload);
    assert one == Signing(key, payloadType, payload);
  }

  /** Identifiers bound to their keys name as many keys as there are identifiers. */
  lemma {:induction false} BoundKeysAreDistinct(k: Scheme, ids: set<string>, trusted: map<string, Bytes>)
    requires forall id :: id in ids ==> id in trusted && k.keyId(trusted[id]) == id
    ensures |KeysOf(ids, trusted)| == |ids|
    decreases |ids|
  {
    if ids == {} {
      assert KeysOf(ids, trusted) == {};
    } else {
      var id :| id in ids;
      var rest := ids - {id};
      BoundKeysAreDistinct(k, rest, trusted);
      assert KeysOf(ids, trusted) == KeysOf(rest, trusted) + {trusted[id]};
      assert trusted[id] !in KeysOf(rest, trusted);
    }
  }

  lemma SignersVouch(k: Scheme, e: Envelope, trusted: map<string, Bytes>, threshold: int, id: string) returns (i: nat)
    requires Accepts(k, e, trusted, threshold) && id in Signers(e.signatures, trusted)
    ensures i < |e.signatures| && e.signatures[i].keyId == id && Vouches(k, e.signatures[i], trusted, Message(k, e))
  {
    hide Pae, Statement, Vouches, WellFormed;
    i :| 0 <= i < |e.signatures| && e.signatures[i].keyId in trusted && e.signatures[i].keyId == id;
  }

  /**
   Acceptance means that at least `threshold` pairwise distinct trusted keys each
   signed exactly this payload type and payload.
   */
  lemma AcceptanceNeedsSigners(k: Scheme, e: Envelope, trusted: map<string, Bytes>, threshold: int, signed: set<Signing>)
    requires Accepts(k, e, trusted, threshold) && Unforged(k, e, trusted, signed)
    ensures forall id :: id in Signers(e.signatures, trusted) ==>
              id in trusted && Signing(trusted[id], e.payloadType, Statement(k, e).value) in signed
    ensures |KeysOf(Signers(e.signatures, trusted), trusted)| >= threshold
    ensures forall key :: key in KeysOf(Signers(e.signatures, trusted), trusted) ==>
              Signing(key, e.payloadType, Statement(k, e).value) in signed
  {
    hide Pae, Statement, WellFormed, Accepts, MadeBy;
    var ids := Signers(e.signatures, trusted);
    AcceptedStatement(k, e, trusted, threshold);
    forall id | id in ids
      ensures id in trusted && k.keyId(trusted[id]) == id && Signing(trusted[id], e.payloadType, Statement(k, e).value) in signed
    {
      var i := SignersVouch(k, e, trusted, threshold, id);
      MadeIsSigned(signed, trusted[id], e.payloadType, Statement(k, e).value);
    }
    BoundKeysAreDistinct(k, ids, trusted);
  }

  lemma AcceptedStatement(k: Scheme, e: Envelope, trusted: map<string, Bytes>, threshold: int)
    requires Accepts(k, e, trusted, threshold)
    ensures Statement(k, e).Some? && |Signers(e.signatures, trusted)| >= threshold
  {
  }

  // ----- signing

  function Signed(k: Scheme, privateKey: Bytes, payloadType: Bytes, statement: Bytes): Signature
  {
    Signature(k.keyId(k.publicKey(privateKey)), k.encode64(k.sign(privateKey, Pae(payloadType, statement))))
  }

  function Sign(k: Scheme, payloadType: Bytes, statement: Bytes, privateKey: Bytes): Option<Envelope>
  {
    if payloadType == [] || !k.validPrivate(privateKey) then None
    else
      var canonical := k.canonicalize(statement);
      if canonical.None? then None
      else Some(Envelope(VERSION, payloadType, k.encode64(canonical.value), [Signed(k, privateKey, payloadType, canonical.value)]))
  }

  function AddSignature(k: Scheme, e: Envelope, privateKey: Bytes): Option<Envelope>
  {
    var statement := Statement(k, e);
    if statement.None? || !k.validPrivate(privateKey) || HasSigner(e.signatures, k.keyId(k.publicKey(privateKey))) then None
    else Some(e.(signatures := e.signatures + [Signed(k, privateKey, e.payloadType, statement.value)]))
  }

  predicate HasSigner(signatures: seq<Signature>, keyId: string)
  {
    exists i :: 0 <= i < |signatures| && signatures[i].keyId == keyId
  }

  /** Signatures verify, encodings decode, and canonicalisation is idempotent on nonempty statements. */
  ghost predicate Lawful(k: Scheme)
  {
    && (forall key, m :: k.validPrivate(key) ==>
          k.verify(k.publicKey(key), m, k.sign(key, m)) && |k.sign(key, m)| == SIGNATURE_SIZE && |k.publicKey(key)| == KEY_SIZE)
    && (forall b: Bytes :: k.decode64(k.encode64(b)) == Some(b) && (b != [] ==> k.encode64(b) != ""))
    && (forall b :: k.canonicalize(b).Some? ==> k.canonicalize(b).value != [] && k.canonicalize(k.canonicalize(b).value) == k.canonicalize(b))
  }

  lemma SignedVouches(k: Scheme, privateKey: Bytes, payloadType: Bytes, statement: Bytes, trusted: map<string, Bytes>)
    requires Lawful(k) && k.validPrivate(privateKey)
    requires k.keyId(k.publicKey(privateKey)) in trusted ==> trusted[k.keyId(k.publicKey(privateKey))] == k.publicKey(privateKey)
    ensures var s := Signed(k, privateKey, payloadType, statement);
            WellFormed(k, s) && (s.keyId in trusted ==> Vouches(k, s, trusted, Pae(payloadType, statement)))
  {
    hide Pae;
  }

  /** A freshly signed statement is accepted by whoever trusts its key. */
  lemma SignIsAccepted(k: Scheme, payloadType: Bytes, statement: Bytes, privateKey: Bytes, trusted: map<string, Bytes>)
    requires Lawful(k) && Sign(k, payloadType, statement, privateKey).Some?
    requires var id := k.keyId(k.publicKey(privateKey)); id in trusted && trusted[id] == k.publicKey(privateKey)
    ensures var e := Sign(k, payloadType, statement, privateKey).value;
            Accepts(k, e, trusted, 1) && Statement(k, e) == k.canonicalize(statement)
  {
    hide Pae, Vouches, WellFormed;
    var e := Sign(k, payloadType, statement, privateKey).value;
    var canonical := k.canonicalize(statement).value;
    assert Statement(k, e) == Some(canonical);
    var s := Signed(k, privateKey, payloadType, canonical);
    SignedVouches(k, privateKey, payloadType, canonical, trusted);
    NoSigners(trusted);
    SignersSnoc([], s, trusted);
    assert [] + [s] == [s];
    assert Signers(e.signatures, trusted) == {s.keyId};
  }

  /** Another signature keeps acceptance, and counts once more when its key is trusted. */
  lemma AddSignatureIsAccepted(k: Scheme, e: Envelope, privateKey: Bytes, trusted: map<string, Bytes>, threshold: int)
    requires Lawful(k) && Accepts(k, e, trusted, threshold) && AddSignature(k, e, privateKey).Some?
    requires var id := k.keyId(k.publicKey(privateKey)); id in trusted ==> trusted[id] == k.publicKey(privateKey)
    ensures var more := AddSignature(k, e, privateKey).value;
            && Accepts(k, more, trusted, threshold + if k.keyId(k.publicKey(privateKey)) in trusted then 1 else 0)
            && Statement(k, more) == Statement(k, e)
  {
    hide Pae, Vouches, WellFormed, Signers, OneEach, Clean, HasSigner;
    var more := AddSignature(k, e, privateKey).value;
    var statement := Statement(k, e).value;
    assert Statement(k, more) == Some(statement);
    var s := Signed(k, privateKey, e.payloadType, statement);
    SignedVouches(k, privateKey, e.payloadType, statement, trusted);
    SignersSnoc(e.signatures, s, trusted);
    SignersAreIds(e.signatures, trusted);
    var n := |e.signatures|;
    assert more.signatures[..n] == e.signatures && more.signatures[..n + 1] == more.signatures;
    OneEachSnoc(more.signatures, n);
    CleanSnoc(k, more.signatures, n, trusted, Pae(e.payloadType, statement));
  }

  lemma SignersAreIds(signatures: seq<Signature>, trusted: map<string, Bytes>)
    ensures forall id :: id in Signers(signatures, trusted) ==> HasSigner(signatures, id)
  {
  }

  // ----- signing meets what acceptance assumes

  /** The signing that an operation performs. */
  function SigningOf(k: Scheme, privateKey: Bytes, payloadType: Bytes, statement: Bytes): Signing
  {
    Signing(k.publicKey(privateKey), payloadType, statement)
  }

  /** The private key's identifier is bound to its own public key, if it is trusted. */
  predicate BoundHere(k: Scheme, privateKey: Bytes, trusted: map<string, Bytes>)
  {
    var id := k.keyId(k.publicKey(privateKey)); id in trusted ==> trusted[id] == k.publicKey(privateKey)
  }

  lemma OwnSigningMade(k: Scheme, privateKey: Bytes, payloadType: Bytes, statement: Bytes, signed: set<Signing>)
    requires SigningOf(k, privateKey, payloadType, statement) in signed
    ensures MadeBy(signed, k.publicKey(privateKey), Pae(payloadType, statement))
  {
    hide Pae;
    assert SigningOf(k, privateKey, payloadType, statement).key == k.publicKey(privateKey);
  }

  lemma MadeByMore(signed: set<Signing>, more: set<Signing>, key: Bytes, message: Bytes)
    requires MadeBy(signed, key, message) && signed <= more
    ensures MadeBy(more, key, message)
  {
    hide Pae;
    var s :| s in signed && s.key == key && message == Pae(s.payloadType, s.payload);
    assert s in more;
  }

  /** A freshly signed envelope is unforged: its one signature is the one just made. */
  lemma SignIsUnforged(k: Scheme, payloadType: Bytes, statement: Bytes, privateKey: Bytes, trusted: map<string, Bytes>)
    requires Lawful(k) && Sign(k, payloadType, statement, privateKey).Some? && BoundHere(k, privateKey, trusted)
    ensures var e := Sign(k, payloadType, statement, privateKey).value;
            Statement(k, e) == k.canonicalize(statement) && Statement(k, e).Some? &&
            Unforged(k, e, trusted, {SigningOf(k, privateKey, payloadType, Statement(k, e).value)})
  {
    hide Pae, WellFormed, MadeBy;
    var e := Sign(k, payloadType, statement, privateKey).value;
    var canonical := k.canonicalize(statement).value;
    assert Statement(k, e) == Some(canonical);
    OwnSigningMade(k, privateKey, payloadType, canonical, {SigningOf(k, privateKey, payloadType, canonical)});
  }

  /** Adding a signature keeps an envelope unforged, once the new signing is on record. */
  lemma AddSignatureIsUnforged(k: Scheme, e: Envelope, privateKey: Bytes, trusted: map<string, Bytes>, signed: set<Signing>)
    requires AddSignature(k, e, privateKey).Some? && BoundHere(k, privateKey, trusted)
    requires Statement(k, e).Some? && Unforged(k, e, trusted, signed)
    ensures var more := AddSignature(k, e, privateKey).value;
            Statement(k, more) == Statement(k, e) &&
            Unforged(k, more, trusted, signed + {SigningOf(k, privateKey, e.payloadType, Statement(k, e).value)})
  {
    hide Pae, WellFormed, MadeBy;
    var more, statement := AddSignature(k, e, privateKey).value, Statement(k, e).value;
    assert Statement(k, more) == Some(statement);
    var all := signed + {SigningOf(k, privateKey, e.payloadType, statement)};
    OwnSigningMade(k, privateKey, e.payloadType, statement, all);
    forall i | 0 <= i < |more.signatures| && Vouches(k, more.signatures[i], trusted, Message(k, more))
      ensures MadeBy(all, trusted[more.signatures[i].keyId], Message(k, more))
    {
      if i < |e.signatures| {
        assert more.signatures[i] == e.signatures[i];
        MadeByMore(signed, all, trusted[e.signatures[i].keyId], Message(k, e));
      }
    }
  }

  /** Signing and then verifying with threshold one proves that this very key signed this very statement. */
  lemma SignedAndAccepted(k: Scheme, payloadType: Bytes, statement: Bytes, privateKey: Bytes, trusted: map<string, Bytes>)
    requires Lawful(k) && Sign(k, payloadType, statement, privateKey).Some?
    requires k.keyId(k.publicKey(privateKey)) in trusted && BoundHere(k, privateKey, trusted)
    ensures var e := Sign(k, payloadType, statement, privateKey).value;
            Accepts(k, e, trusted, 1) && KeysOf(Signers(e.signatures, trusted), trusted) == {k.publicKey(privateKey)}
  {
    hide Pae, Unforged, Accepts, Signers, KeysOf, Statement, Lawful;
    var e := Sign(k, payloadType, statement, privateKey).value;
    SignIsAccepted(k, payloadType, statement, privateKey, trusted);
    SignIsUnforged(k, payloadType, statement, privateKey, trusted);
    AcceptanceNeedsSigners(k, e, trusted, 1, {SigningOf(k, privateKey, payloadType, Statement(k, e).value)});
    var keys := KeysOf(Signers(e.signatures, trusted), trusted);
    assert forall key :: key in keys ==> key == k.publicKey(privateKey);
    assert keys != {};
    var key :| key in keys;
    assert keys == {k.publicKey(privateKey)};
  }
}
