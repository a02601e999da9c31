/**
 Writing evidence (internal/cas/store.go): immutable objects, envelopes written
 before the references that link to them, and any number of clients interleaving
 at the atomic file-system steps or crashing between them.
 */
module EvidenceStore {
  import opened Common
  import opened EvidenceGraph

  // ----- growth

  predicate Includes(a: map<string, Bytes>, b: map<string, Bytes>)
  {
    forall d :: d in a ==> d in b && b[d] == a[d]
  }

  /** Nothing stored was removed or changed. */
  predicate Extends(a: Store, b: Store)
  {
    Includes(a.objects, b.objects) && Includes(a.envelopes, b.envelopes) && Includes(a.refs, b.refs)
  }

  lemma ReadGrows(c: Codec, a: Store, b: Store, ref: Ref)
    requires Extends(a, b) && Read(c, a, ref).Some?
    ensures Read(c, b, ref) == Read(c, a, ref)
  {
  }

  lemma {:induction false} VisitGrows(c: Codec, a: Store, b: Store, ref: Ref, visiting: set<Ref>, order: seq<Ref>, depth: nat)
    requires Extends(a, b) && depth <= MAX_RELATION_DEPTH + 1 && Visit(c, a, ref, visiting, order, depth).Some?
    ensures Visit(c, b, ref, visiting, order, depth) == Visit(c, a, ref, visiting, order, depth)
    decreases MAX_RELATION_DEPTH + 1 - depth, 2, 0
  {
    hide Extends, Read, ResolveAll;
    if ref !in order {
      ReadGrows(c, a, b, ref);
      ResolveAllGrows(c, a, b, Read(c, a, ref).value.relations, visiting + {ref}, order, depth);
    }
  }

  lemma {:induction false} ResolveOneGrows(c: Codec, a: Store, b: Store, target: Ref, visiting: set<Ref>, order: seq<Ref>, depth: nat)
    requires Extends(a, b) && depth <= MAX_RELATION_DEPTH && ResolveOne(c, a, target, visiting, order, depth).Some?
    ensures ResolveOne(c, b, target, visiting, order, depth) == ResolveOne(c, a, target, visiting, order, depth)
    decreases MAX_RELATION_DEPTH + 1 - depth, 0, 0
  {
    hide Visit;
    if target.kind == "Evidence" { VisitGrows(c, a, b, target, visiting, order, depth + 1); }
  }

  lemma {:induction false} ResolveAllGrows(c: Codec, a: Store, b: Store, relations: seq<Ref>, visiting: set<Ref>, order: seq<Ref>, depth: nat)
    requires Extends(a, b) && depth <= MAX_RELATION_DEPTH && ResolveAll(c, a, relations, visiting, order, depth).Some?
    ensures ResolveAll(c, b, relations, visiting, order, depth) == ResolveAll(c, a, relations, visiting, order, depth)
    decreases MAX_RELATION_DEPTH + 1 - depth, 1, |relations|
  {
    hide Extends, ResolveOne;
    if relations != [] {
      var n := |relations| - 1;
      ResolveAllGrows(c, a, b, relations[..n], visiting, order, depth);
      var before := ResolveAll(c, a, relations[..n], visiting, order, depth).value;
      ResolveOneGrows(c, a, b, relations[n], visiting, before, depth);
    }
  }

  /** What can be read stays readable, with the same contents, however the store grows. */
  lemma GetGrows(c: Codec, a: Store, b: Store, ref: Ref)
    requires Extends(a, b) && Get(c, a, ref).Some?
    ensures Get(c, b, ref) == Get(c, a, ref)
  {
    hide Extends, Visit, Read;
    VisitGrows(c, a, b, ref, {}, [], 0);
    ReadGrows(c, a, b, ref);
  }

  // ----- the atomic steps of PutEvidence

  /** Where one client stands in a PutEvidence call. */
  datatype Client = Idle | Failed | Resolved(evidence: Evidence) | Enveloped(evidence: Evidence) | Returned(evidence: Evidence)

  /** Everything PutEvidence demands before it writes. */
  predicate Ready(c: Codec, s: Store, e: Evidence)
  {
    && ValidEvidence(c, e, e.ref) && Verified(c, s.objects, e.payload.value.digest)
    && ResolveAll(c, s, e.relations, {e.ref}, [], 0).Some?
    && Bounded(c, c.encode(e))
  }

  /** The stored evidence must encode to exactly the bytes being put. */
  function Compare(c: Codec, s: Store, e: Evidence): Client
  {
    var stored := Get(c, s, e.ref);
    if stored.Some? && c.encode(stored.value) == c.encode(e) then Returned(e) else Failed
  }

  function Start(c: Codec, s: Store, e: Evidence): Client
  {
    if !Ready(c, s, e) then Failed
    else if e.ref.digest in s.refs then Compare(c, s, e)
    else Resolved(e)
  }

  /** putDigestBytes: an existing file must verify; a new one is linked in whole. */
  function PutDigest(c: Codec, files: map<string, Bytes>, data: Bytes): Option<map<string, Bytes>>
  {
    var d := c.digest(data);
    if d in files then if Verified(c, files, d) then Some(files) else None
    else if Bounded(c, data) then Some(files[d := data])
    else None
  }

  function WriteEnvelope(c: Codec, s: Store, e: Evidence): (Store, Client)
  {
    var files := PutDigest(c, s.envelopes, c.encode(e));
    if files.Some? then (s.(envelopes := files.value), Enveloped(e)) else (s, Failed)
  }

  /** Link the reference to the envelope file, unless the reference exists; then read it back. */
  function Link(c: Codec, s: Store, e: Evidence): (Store, Client)
  {
    var d := c.digest(c.encode(e));
    if e.ref.digest in s.refs then (s, Compare(c, s, e))
    else if d !in s.envelopes then (s, Failed)
    else
      var linked := s.(refs := s.refs[e.ref.digest := s.envelopes[d]]);
      (linked, Compare(c, linked, e))
  }

  /** One call with nothing in between. */
  function PutAlone(c: Codec, s: Store, e: Evidence): (Store, Client)
  {
    var start := Start(c, s, e);
    if !start.Resolved? then (s, start)
    else
      var written := WriteEnvelope(c, s, e);
      if !written.1.Enveloped? then written else Link(c, written.0, e)
  }

  class Cas {
    const codec: Codec
    var store: Store

    constructor (codec: Codec)
      ensures this.codec == codec && store == EMPTY
    {
      this.codec, store := codec, EMPTY;
    }

    method Put(data: Bytes) returns (ref: Option<Ref>)
      modifies this
      ensures var files := PutDigest(codec, old(store).objects, data);
              && ref.Some? == (Bounded(codec, data) && files.Some?)
              && store == (if ref.Some? then old(store).(objects := files.value) else old(store))
      ensures ref.Some? ==> ref.value == Ref("Payload", "", codec.digest(data))
    {
      if !Bounded(codec, data) { return None; }
      var files := PutDigest(codec, store.objects, data);
      if files.None? { return None; }
      store := store.(objects := files.value);
      return Some(Ref("Payload", "", codec.digest(data)));
    }

    method GetEvidence(ref: Ref) returns (r: Option<Evidence>)
      ensures r == Get(codec, store, ref)
    {
      var traversal := new Traversal(codec, store);
      r := traversal.GetEvidence(codec, store, ref, 0);
    }

    method CompareExisting(e: Evidence) returns (r: Client)
      ensures r == Compare(codec, store, e)
    {
      var stored := GetEvidence(e.ref);
      if stored.None? || codec.encode(stored.value) != codec.encode(e) { return Failed; }
      return Returned(e);
    }

    method PutEvidence(e: Evidence) returns (r: Client)
      modifies this
      ensures (store, r) == PutAlone(codec, old(store), e)
    {
      hide Get, ResolveAll, Visit, Verified;
      if !ValidEvidence(codec, e, e.ref) { return Failed; }
      if !Verified(codec, store.objects, e.payload.value.digest) { return Failed; }
      var traversal := new Traversal(codec, store);
      traversal.visiting := {e.ref};
      var ok := traversal.ResolveRelations(codec, store, e.relations, 0);
      if !ok { return Failed; }
      var encoded := codec.encode(e);
      if !Bounded(codec, encoded) { return Failed; }
      if e.ref.digest in store.refs {
        r := CompareExisting(e);
        return;
      }
      var digest := codec.digest(encoded);
      var files := PutDigest(codec, store.envelopes, encoded);
      if files.None? { return Failed; }
      store := store.(envelopes := files.value);
      if digest !in store.envelopes { return Failed; }
      store := store.(refs := store.refs[e.ref.digest := store.envelopes[digest]]);
      r := CompareExisting(e);
    }
  }

  // ----- clients interleaving and crashing

  datatype Shared = Shared(store: Store, clients: seq<Client>)

  datatype Step = PutPayload(data: Bytes) | Begin(i: nat, evidence: Evidence) | Write(i: nat) | Commit(i: nat) | Crash(i: nat)

  function Advance(w: Shared, i: nat, next: (Store, Client)): Shared
    requires i < |w.clients|
  {
    Shared(next.0, w.clients[i := next.1])
  }

  function Apply(c: Codec, w: Shared, step: Step): Shared
  {
    match step
    case PutPayload(data) =>
      var files := PutDigest(c, w.store.objects, data);
      if Bounded(c, data) && files.Some? then w.(store := w.store.(objects := files.value)) else w
    case Begin(i, e) => if i < |w.clients| then Advance(w, i, (w.store, Start(c, w.store, e))) else w
    case Write(i) =>
      if i < |w.clients| && w.clients[i].Resolved? then Advance(w, i, WriteEnvelope(c, w.store, w.clients[i].evidence)) else w
    case Commit(i) =>
      if i < |w.clients| && w.clients[i].Enveloped? then Advance(w, i, Link(c, w.store, w.clients[i].evidence)) else w
    case Crash(i) => if i < |w.clients| then Advance(w, i, (w.store, Idle)) else w
  }

  function Run(c: Codec, w: Shared, steps: seq<Step>): Shared
  {
    if steps == [] then w else Apply(c, Run(c, w, steps[..|steps| - 1]), steps[|steps| - 1])
  }

  /** Strict decoding inverts canonical encoding, and digests do not collide. */
  ghost predicate Lawful(c: Codec)
  {
    && (forall e :: c.sealOk(e) ==> c.decode(c.encode(e)) == Some(e))
    && (forall a, b :: c.digest(a) == c.digest(b) ==> a == b)
  }

  function RefTo(digest: string): Ref { Ref("Evidence", "", digest) }

  /** The reference reads back, in full, as evidence that encodes to the linked bytes. */
  ghost predicate Holds(c: Codec, s: Store, ref: Ref, e: Evidence)
  {
    Get(c, s, ref) == Some(e) && ref.digest in s.refs && s.refs[ref.digest] == c.encode(e)
  }

  ghost predicate Linked(c: Codec, s: Store, digest: string)
  {
    exists e :: Holds(c, s, RefTo(digest), e)
  }

  ghost predicate AllVerified(c: Codec, files: map<string, Bytes>)
  {
    forall d :: d in files ==> Verified(c, files, d)
  }

  ghost predicate GoodStore(c: Codec, s: Store)
  {
    && AllVerified(c, s.objects) && AllVerified(c, s.envelopes)
    && forall d :: d in s.refs ==> Linked(c, s, d)
  }

  ghost predicate GoodClient(c: Codec, s: Store, client: Client)
  {
    match client
    case Idle => true
    case Failed => true
    case Resolved(e) => Ready(c, s, e)
    case Enveloped(e) => Ready(c, s, e) && c.digest(c.encode(e)) in s.envelopes && s.envelopes[c.digest(c.encode(e))] == c.encode(e)
    case Returned(e) => Holds(c, s, e.ref, e)
  }

  ghost predicate Good(c: Codec, w: Shared)
  {
    GoodStore(c, w.store) && forall i :: 0 <= i < |w.clients| ==> GoodClient(c, w.store, w.clients[i])
  }

  // ----- what each step keeps

  lemma ReadyGrows(c: Codec, a: Store, b: Store, e: Evidence)
    requires Extends(a, b) && Ready(c, a, e)
    ensures Ready(c, b, e)
  {
    hide ResolveAll;
    ResolveAllGrows(c, a, b, e.relations, {e.ref}, [], 0);
  }

  lemma HoldsGrows(c: Codec, a: Store, b: Store, ref: Ref, e: Evidence)
    requires Extends(a, b) && Holds(c, a, ref, e)
    ensures Holds(c, b, ref, e)
  {
    hide Get;
    GetGrows(c, a, b, ref);
  }

  lemma ClientGrows(c: Codec, a: Store, b: Store, client: Client)
    requires Extends(a, b) && GoodClient(c, a, client)
    ensures GoodClient(c, b, client)
  {
    hide Ready, Holds;
    match client
    case Idle =>
    case Failed =>
    case Resolved(e) => ReadyGrows(c, a, b, e);
    case Enveloped(e) => ReadyGrows(c, a, b, e);
    case Returned(e) => HoldsGrows(c, a, b, e.ref, e);
  }

  lemma LinkedGrows(c: Codec, a: Store, b: Store, digest: string)
    requires Extends(a, b) && Linked(c, a, digest)
    ensures Linked(c, b, digest)
  {
    hide Holds;
    var e :| Holds(c, a, RefTo(digest), e);
    HoldsGrows(c, a, b, RefTo(digest), e);
  }

  /** A client that compares equal holds its evidence. */
  lemma CompareHolds(c: Codec, s: Store, e: Evidence)
    requires Lawful(c) && ValidEvidence(c, e, e.ref) && e.ref.digest in s.refs && Linked(c, s, e.ref.digest)
    ensures GoodClient(c, s, Compare(c, s, e))
  {
    hide Visit, Ready;
    assert e.ref == RefTo(e.ref.digest);
    var held :| Holds(c, s, RefTo(e.ref.digest), held);
    assert ValidEvidence(c, held, e.ref);
    if c.encode(held) == c.encode(e) {
      assert c.decode(c.encode(held)) == Some(held) && c.decode(c.encode(e)) == Some(e);
    }
  }

  lemma EncodedReads(c: Codec, s: Store, e: Evidence)
    requires Lawful(c) && Ready(c, s, e) && e.ref.digest in s.refs && s.refs[e.ref.digest] == c.encode(e)
    requires c.digest(c.encode(e)) in s.envelopes && s.envelopes[c.digest(c.encode(e))] == c.encode(e)
    ensures Holds(c, s, e.ref, e)
  {
    assert Read(c, s, e.ref) == Some(e);
    assert {} + {e.ref} == {e.ref};
    assert Visit(c, s, e.ref, {}, [], 0).Some?;
  }

  /** Linking a written envelope leaves a reference that reads back as the evidence put. */
  lemma LinkHolds(c: Codec, s: Store, e: Evidence)
    requires Lawful(c) && GoodClient(c, s, Enveloped(e)) && e.ref.digest !in s.refs
    ensures var out := Link(c, s, e); out.1 == Returned(e) && Holds(c, out.0, e.ref, e) && Extends(s, out.0)
  {
    hide Ready, Holds, Get;
    var d := c.digest(c.encode(e));
    var linked := s.(refs := s.refs[e.ref.digest := s.envelopes[d]]);
    assert Extends(s, linked);
    ReadyGrows(c, s, linked, e);
    EncodedReads(c, linked, e);
    HoldsCompares(c, linked, e);
  }

  lemma HoldsCompares(c: Codec, s: Store, e: Evidence)
    requires Holds(c, s, e.ref, e)
    ensures Compare(c, s, e) == Returned(e)
  {
    hide Get;
  }

  lemma ReadyRef(c: Codec, s: Store, e: Evidence)
    requires Ready(c, s, e)
    ensures ValidEvidence(c, e, e.ref) && e.ref == RefTo(e.ref.digest) && Bounded(c, c.encode(e))
  {
  }

  /** What one client's transition owes the others. */
  ghost predicate Sound(c: Codec, s: Store, next: (Store, Client))
  {
    Extends(s, next.0) && GoodStore(c, next.0) && GoodClient(c, next.0, next.1)
  }

  lemma StartSound(c: Codec, s: Store, e: Evidence)
    requires Lawful(c) && GoodStore(c, s)
    ensures Sound(c, s, (s, Start(c, s, e)))
  {
    hide Ready, Compare, AllVerified, Linked, Lawful;
    if Ready(c, s, e) {
      ReadyRef(c, s, e);
      if e.ref.digest in s.refs { CompareHolds(c, s, e); }
    }
  }

  lemma GoodGrows(c: Codec, a: Store, b: Store)
    requires GoodStore(c, a) && Extends(a, b) && a.refs == b.refs && AllVerified(c, b.objects) && AllVerified(c, b.envelopes)
    ensures GoodStore(c, b)
  {
    hide AllVerified, Linked;
    forall d | d in b.refs ensures Linked(c, b, d) { LinkedGrows(c, a, b, d); }
  }

  lemma PutDigestKeeps(c: Codec, files: map<string, Bytes>, data: Bytes)
    requires AllVerified(c, files) && PutDigest(c, files, data).Some?
    ensures var after := PutDigest(c, files, data).value;
            AllVerified(c, after) && Includes(files, after) && c.digest(data) in after && c.digest(after[c.digest(data)]) == c.digest(data)
  {
  }

  lemma WriteSound(c: Codec, s: Store, e: Evidence)
    requires Lawful(c) && GoodStore(c, s) && Ready(c, s, e)
    ensures Sound(c, s, WriteEnvelope(c, s, e)) && WriteEnvelope(c, s, e).1 == Enveloped(e)
  {
    hide Ready, Linked, AllVerified;
    ReadyRef(c, s, e);
    PutDigestSucceeds(c, s.envelopes, c.encode(e));
    PutDigestKeeps(c, s.envelopes, c.encode(e));
    var next := WriteEnvelope(c, s, e).0;
    ReadyGrows(c, s, next, e);
    GoodGrows(c, s, next);
  }

  lemma PutDigestSucceeds(c: Codec, files: map<string, Bytes>, data: Bytes)
    requires AllVerified(c, files) && Bounded(c, data)
    ensures PutDigest(c, files, data).Some?
  {
  }

  lemma LinkSound(c: Codec, s: Store, e: Evidence)
    requires Lawful(c) && GoodStore(c, s) && GoodClient(c, s, Enveloped(e))
    ensures Sound(c, s, Link(c, s, e))
  {
    hide Ready, Holds, Compare, AllVerified, Lawful;
    ReadyRef(c, s, e);
    if e.ref.digest in s.refs {
      CompareHolds(c, s, e);
    } else {
      LinkHolds(c, s, e);
      var next := Link(c, s, e).0;
      forall d | d in next.refs ensures Linked(c, next, d) {
        if d in s.refs { LinkedGrows(c, s, next, d); } else { assert d == e.ref.digest; }
      }
    }
  }

  lemma AdvanceKeeps(c: Codec, w: Shared, i: nat, next: (Store, Client))
    requires Good(c, w) && i < |w.clients| && Sound(c, w.store, next)
    ensures Good(c, Advance(w, i, next)) && Extends(w.store, Advance(w, i, next).store)
  {
    hide GoodStore, GoodClient, Extends;
    forall j | 0 <= j < |w.clients| ensures GoodClient(c, next.0, Advance(w, i, next).clients[j]) {
      if j != i { ClientGrows(c, w.store, next.0, w.clients[j]); }
    }
  }

  lemma PayloadKeeps(c: Codec, w: Shared, data: Bytes)
    requires Good(c, w)
    ensures var after := Apply(c, w, PutPayload(data)); Good(c, after) && Extends(w.store, after.store)
  {
    hide GoodClient, Linked, AllVerified;
    var after := Apply(c, w, PutPayload(data));
    if Bounded(c, data) && PutDigest(c, w.store.objects, data).Some? {
      PutDigestKeeps(c, w.store.objects, data);
      GoodGrows(c, w.store, after.store);
      forall j | 0 <= j < |w.clients| ensures GoodClient(c, after.store, after.clients[j]) {
        ClientGrows(c, w.store, after.store, w.clients[j]);
      }
    }
  }

  /** Every step of every client keeps every linked reference readable and only adds to the store. */
  lemma StepKeeps(c: Codec, w: Shared, step: Step)
    requires Lawful(c) && Good(c, w)
    ensures Good(c, Apply(c, w, step)) && Extends(w.store, Apply(c, w, step).store)
  {
    hide GoodStore, Sound, Extends, Lawful, Start, WriteEnvelope, Link, PutDigest;
    ExtendsItself(w.store);
    match step
    case PutPayload(data) => PayloadKeeps(c, w, data);
    case Begin(i, e) =>
      if i < |w.clients| { StartSound(c, w.store, e); AdvanceKeeps(c, w, i, (w.store, Start(c, w.store, e))); }
    case Write(i) =>
      if i < |w.clients| && w.clients[i].Resolved? {
        assert GoodClient(c, w.store, w.clients[i]);
        WriteSound(c, w.store, w.clients[i].evidence);
        AdvanceKeeps(c, w, i, WriteEnvelope(c, w.store, w.clients[i].evidence));
      }
    case Commit(i) =>
      if i < |w.clients| && w.clients[i].Enveloped? {
        assert GoodClient(c, w.store, w.clients[i]);
        LinkSound(c, w.store, w.clients[i].evidence);
        AdvanceKeeps(c, w, i, Link(c, w.store, w.clients[i].evidence));
      }
    case Crash(i) =>
      if i < |w.clients| { CrashSound(c, w.store); AdvanceKeeps(c, w, i, (w.store, Idle)); }
  }

  lemma ExtendsItself(s: Store)
    ensures Extends(s, s)
  {
  }

  lemma CrashSound(c: Codec, s: Store)
    requires GoodStore(c, s)
    ensures Sound(c, s, (s, Idle))
  {
    hide GoodStore;
  }

  lemma ExtendsTrans(a: Store, b: Store, d: Store)
    requires Extends(a, b) && Extends(b, d)
    ensures Extends(a, d)
  {
  }

  /** Over every interleaving of puts and crashes. */
  lemma {:induction false} RunKeeps(c: Codec, w: Shared, steps: seq<Step>)
    requires Lawful(c) && Good(c, w)
    ensures Good(c, Run(c, w, steps)) && Extends(w.store, Run(c, w, steps).store)
  {
    hide Good, Lawful, Extends, Apply;
    if steps == [] {
      ExtendsItself(w.store);
    } else {
      var n := |steps| - 1;
      RunKeeps(c, w, steps[..n]);
      var before := Run(c, w, steps[..n]);
      StepKeeps(c, before, steps[n]);
      ExtendsTrans(w.store, before.store, Apply(c, before, steps[n]).store);
    }
  }

  /** A reference some client got back resolves to the same evidence and bytes in every later state. */
  lemma ReturnedRefsLast(c: Codec, clients: nat, before: seq<Step>, after: seq<Step>, i: nat)
    requires Lawful(c) && i < clients
    ensures var w := Run(c, Shared(EMPTY, seq(clients, _ => Idle)), before);
            i < |w.clients| && w.clients[i].Returned? ==>
              Holds(c, Run(c, w, after).store, w.clients[i].evidence.ref, w.clients[i].evidence)
  {
    hide Lawful, Holds, Extends, GoodStore;
    var start := Shared(EMPTY, seq(clients, _ => Idle));
    EmptyIsGood(c, clients);
    RunKeeps(c, start, before);
    var w := Run(c, start, before);
    RunKeeps(c, w, after);
    if i < |w.clients| && w.clients[i].Returned? {
      assert GoodClient(c, w.store, w.clients[i]);
      HoldsGrows(c, w.store, Run(c, w, after).store, w.clients[i].evidence.ref, w.clients[i].evidence);
    }
  }

  lemma EmptyIsGood(c: Codec, clients: nat)
    ensures Good(c, Shared(EMPTY, seq(clients, _ => Idle)))
  {
  }

  /** One undisturbed call succeeds exactly when its demands are met and no different evidence has the reference. */
  lemma PutAloneSucceeds(c: Codec, s: Store, e: Evidence)
    requires Lawful(c) && GoodStore(c, s)
    ensures var out := PutAlone(c, s, e);
            && (out.1 == Returned(e) <==> Ready(c, s, e) && (e.ref.digest in s.refs ==> s.refs[e.ref.digest] == c.encode(e)))
            && (out.1 == Returned(e) ==> Holds(c, out.0, e.ref, e))
            && (out.1 == Returned(e) || out.1 == Failed)
  {
    hide Ready, Holds, GoodStore, Compare;
    if Ready(c, s, e) {
      ReadyRef(c, s, e);
      if e.ref.digest in s.refs {
        StoredCompares(c, s, e);
      } else {
        WriteSound(c, s, e);
        LinkHolds(c, WriteEnvelope(c, s, e).0, e);
      }
    }
  }

  lemma StoredCompares(c: Codec, s: Store, e: Evidence)
    requires Lawful(c) && GoodStore(c, s) && ValidEvidence(c, e, e.ref) && e.ref.digest in s.refs
    ensures Compare(c, s, e) == (if s.refs[e.ref.digest] == c.encode(e) then Returned(e) else Failed)
    ensures Compare(c, s, e) == Returned(e) ==> Holds(c, s, e.ref, e)
  {
    hide Get, AllVerified;
    assert e.ref == RefTo(e.ref.digest);
    assert Linked(c, s, e.ref.digest);
    CompareHolds(c, s, e);
  }
}
