/**
 Reading evidence (internal/cas/store.go): an append-only object map and the
 memoised, depth-bounded traversal of relations between evidence envelopes.
 Digests, canonical encoding, reference syntax and sealing are parameters.
 */
module EvidenceGraph {
  import opened Common

  const MAX_RELATION_DEPTH := 32

  datatype Ref = Ref(kind: string, instanceId: string, digest: string)

  /** `body` is everything that the store does not look at. */
  datatype Evidence = Evidence(ref: Ref, payload: Option<Ref>, relations: seq<Ref>, body: string)

  datatype Codec = Codec(
    digest: Bytes -> string,
    encode: Evidence -> Bytes,
    decode: Bytes -> Option<Evidence>,
    refOk: Ref -> bool,
    sealOk: Evidence -> bool,
    maxBytes: nat)

  /** The files below the store root, by digest. */
  datatype Store = Store(objects: map<string, Bytes>, envelopes: map<string, Bytes>, refs: map<string, Bytes>)

  const EMPTY := Store(map[], map[], map[])

  // ----- local reads

  predicate Bounded(c: Codec, data: Bytes) { 0 < |data| <= c.maxBytes }

  /** readVerified: present, bounded and matching its digest. */
  predicate Verified(c: Codec, files: map<string, Bytes>, digest: string)
  {
    digest in files && Bounded(c, files[digest]) && c.digest(files[digest]) == digest
  }

  predicate EvidenceRef(c: Codec, ref: Ref)
  {
    c.refOk(ref) && ref.kind == "Evidence" && ref.instanceId == ""
  }

  predicate ValidEvidence(c: Codec, e: Evidence, expected: Ref)
  {
    && EvidenceRef(c, expected) && e.ref == expected && c.sealOk(e)
    && e.payload.Some? && e.payload.value.kind == "Payload" && e.payload.value.instanceId == ""
  }

  /** The envelope behind a reference, checked on its own: everything but its relations. */
  function Read(c: Codec, s: Store, ref: Ref): (r: Option<Evidence>)
    ensures r.Some? ==> ValidEvidence(c, r.value, ref) && Verified(c, s.objects, r.value.payload.value.digest)
  {
    if !EvidenceRef(c, ref) || ref.digest !in s.refs then None
    else
      var raw := s.refs[ref.digest];
      if !Bounded(c, raw) || !Verified(c, s.envelopes, c.digest(raw)) || s.envelopes[c.digest(raw)] != raw then None
      else
        var e := c.decode(raw);
        if e.Some? && ValidEvidence(c, e.value, ref) && Verified(c, s.objects, e.value.payload.value.digest) then e else None
  }

  /** The bytes are stored under their own digest, are some and not too many. */
  predicate Holds(c: Codec, files: map<string, Bytes>, digest: string)
  {
    digest in files && files[digest] != [] && |files[digest]| <= c.maxBytes && c.digest(files[digest]) == digest
  }

  /** A reference reads as an envelope exactly when the reference file and the stored envelope agree, decode to it,
      name this reference, are sealed, and the payload it names is stored. */
  lemma ReadIff(c: Codec, s: Store, ref: Ref, e: Evidence)
    ensures Read(c, s, ref) == Some(e) <==>
            && c.refOk(ref) && ref.kind == "Evidence" && ref.instanceId == "" && ref.digest in s.refs
            && var raw := s.refs[ref.digest];
               && Holds(c, s.envelopes, c.digest(raw)) && s.envelopes[c.digest(raw)] == raw && c.decode(raw) == Some(e)
               && e.ref == ref && c.sealOk(e)
               && e.payload.Some? && e.payload.value.kind == "Payload" && e.payload.value.instanceId == ""
               && Holds(c, s.objects, e.payload.value.digest)
  {
  }

  // ----- the traversal, as a function of what is being visited and what was loaded, in order

  function Visit(c: Codec, s: Store, ref: Ref, visiting: set<Ref>, order: seq<Ref>, depth: nat): Option<seq<Ref>>
    requires depth <= MAX_RELATION_DEPTH + 1
    decreases MAX_RELATION_DEPTH + 1 - depth, 2, 0
  {
    if depth > MAX_RELATION_DEPTH then None
    else if ref in order then Some(order)
    else if ref in visiting then None
    else
      var e := Read(c, s, ref);
      if e.None? then None
      else
        var below := ResolveAll(c, s, e.value.relations, visiting + {ref}, order, depth);
        if below.None? then None else Some(below.value + [ref])
  }

  function ResolveOne(c: Codec, s: Store, target: Ref, visiting: set<Ref>, order: seq<Ref>, depth: nat): Option<seq<Ref>>
    requires depth <= MAX_RELATION_DEPTH
    decreases MAX_RELATION_DEPTH + 1 - depth, 0, 0
  {
    if !c.refOk(target) || target.instanceId != "" then None
    else if target.kind == "Payload" then if Verified(c, s.objects, target.digest) then Some(order) else None
    else if target.kind == "Evidence" then Visit(c, s, target, visiting, order, depth + 1)
    else None
  }

  function ResolveAll(c: Codec, s: Store, relations: seq<Ref>, visiting: set<Ref>, order: seq<Ref>, depth: nat): Option<seq<Ref>>
    requires depth <= MAX_RELATION_DEPTH
    decreases MAX_RELATION_DEPTH + 1 - depth, 1, |relations|
  {
    if relations == [] then Some(order)
    else
      var n := |relations| - 1;
      var before := ResolveAll(c, s, relations[..n], visiting, order, depth);
      if before.None? then None else ResolveOne(c, s, relations[n], visiting, before.value, depth)
  }

  /** GetEvidence. */
  function Get(c: Codec, s: Store, ref: Ref): Option<Evidence>
  {
    if Visit(c, s, ref, {}, [], 0).Some? then Read(c, s, ref) else None
  }

  lemma {:induction false} PrefixResolves(c: Codec, s: Store, relations: seq<Ref>, i: nat, visiting: set<Ref>, order: seq<Ref>, depth: nat)
    requires depth <= MAX_RELATION_DEPTH && i <= |relations|
    requires ResolveAll(c, s, relations, visiting, order, depth).Some?
    ensures ResolveAll(c, s, relations[..i], visiting, order, depth).Some?
    decreases |relations|
  {
    hide ResolveOne;
    if i < |relations| {
      var n := |relations| - 1;
      PrefixResolves(c, s, relations[..n], i, visiting, order, depth);
      assert relations[..n][..i] == relations[..i];
    } else {
      assert relations[..i] == relations;
    }
  }

  // ----- the traversal as the source runs it

  class Traversal {
    var visiting: set<Ref>
    var loaded: map<Ref, Evidence>
    ghost var order: seq<Ref>

    ghost predicate Valid(c: Codec, s: Store)
      reads this
    {
      (forall r :: r in loaded <==> r in order) && (forall r :: r in loaded ==> Read(c, s, r) == Some(loaded[r]))
    }

    constructor (c: Codec, s: Store)
      ensures Valid(c, s) && visiting == {} && order == []
    {
      visiting, loaded, order := {}, map[], [];
    }

    method GetEvidence(c: Codec, s: Store, ref: Ref, depth: nat) returns (r: Option<Evidence>)
      requires Valid(c, s) && depth <= MAX_RELATION_DEPTH + 1
      modifies this
      ensures Valid(c, s) && visiting == old(visiting)
      ensures var end := Visit(c, s, ref, old(visiting), old(order), depth);
              r.Some? == end.Some? && (r.Some? ==> order == end.value && r == Read(c, s, ref))
      decreases MAX_RELATION_DEPTH + 1 - depth, 2, 0
    {
      hide ResolveAll, Read;
      if depth > MAX_RELATION_DEPTH { return None; }
      if ref in loaded { return Some(loaded[ref]); }
      if ref in visiting { return None; }
      visiting := visiting + {ref};
      var e := Read(c, s, ref);
      if e.None? { visiting := visiting - {ref}; return None; }
      var ok := ResolveRelations(c, s, e.value.relations, depth);
      visiting := visiting - {ref};
      if !ok { return None; }
      loaded, order := loaded[ref := e.value], order + [ref];
      return e;
    }

    method ResolveRelations(c: Codec, s: Store, relations: seq<Ref>, depth: nat) returns (ok: bool)
      requires Valid(c, s) && depth <= MAX_RELATION_DEPTH
      modifies this
      ensures Valid(c, s) && visiting == old(visiting)
      ensures var end := ResolveAll(c, s, relations, old(visiting), old(order), depth);
              ok == end.Some? && (ok ==> order == end.value)
      decreases MAX_RELATION_DEPTH + 1 - depth, 1, 0
    {
      hide Visit, Read, ResolveOne;
      for i := 0 to |relations|
        invariant Valid(c, s) && visiting == old(visiting)
        invariant ResolveAll(c, s, relations[..i], old(visiting), old(order), depth) == Some(order)
      {
        assert relations[..i + 1][..i] == relations[..i];
        ghost var here := order;
        ok := ResolveTarget(c, s, relations[i], depth);
        assert ResolveAll(c, s, relations[..i + 1], old(visiting), old(order), depth) ==
               ResolveOne(c, s, relations[i], old(visiting), here, depth);
        if !ok {
          if ResolveAll(c, s, relations, old(visiting), old(order), depth).Some? {
            PrefixResolves(c, s, relations, i + 1, old(visiting), old(order), depth);
          }
          return;
        }
      }
      assert relations[..|relations|] == relations;
      ok := true;
    }

    method ResolveTarget(c: Codec, s: Store, target: Ref, depth: nat) returns (ok: bool)
      requires Valid(c, s) && depth <= MAX_RELATION_DEPTH
      modifies this
      ensures Valid(c, s) && visiting == old(visiting)
      ensures var end := ResolveOne(c, s, target, old(visiting), old(order), depth);
              ok == end.Some? && (ok ==> order == end.value)
      decreases MAX_RELATION_DEPTH + 1 - depth, 0, 0
    {
      hide Visit, Read;
      if !c.refOk(target) || target.instanceId != "" { return false; }
      if target.kind == "Payload" {
        ok := Verified(c, s.objects, target.digest);
      } else if target.kind == "Evidence" {
        var r := GetEvidence(c, s, target, depth + 1);
        ok := r.Some?;
      } else {
        ok := false;
      }
    }
  }

  // ----- what a successful traversal proves

  /** A relation target is a stored payload or one of the given evidence references. */
  predicate Grounded(c: Codec, s: Store, target: Ref, among: seq<Ref>)
  {
    && c.refOk(target) && target.instanceId == ""
    && ((target.kind == "Payload" && Verified(c, s.objects, target.digest)) || (target.kind == "Evidence" && target in among))
  }

  ghost predicate GroundedAt(c: Codec, s: Store, order: seq<Ref>, i: nat)
    requires i < |order|
  {
    var e := Read(c, s, order[i]);
    e.Some? && forall k :: 0 <= k < |e.value.relations| ==> Grounded(c, s, e.value.relations[k], order[..i])
  }

  /** Every listed reference is readable and rests only on earlier ones. */
  ghost predicate Topological(c: Codec, s: Store, order: seq<Ref>)
  {
    Distinct(order) && forall i :: 0 <= i < |order| ==> GroundedAt(c, s, order, i)
  }

  /** What the traversal does to the order: it grows by sound references that were not being visited. */
  ghost predicate Grows(c: Codec, s: Store, visiting: set<Ref>, before: seq<Ref>, after: seq<Ref>)
  {
    && before <= after && Topological(c, s, after)
    && forall r :: r in after && r in visiting ==> r in before
  }

  lemma GrowsTrans(c: Codec, s: Store, visiting: set<Ref>, a: seq<Ref>, b: seq<Ref>, d: seq<Ref>)
    requires Grows(c, s, visiting, a, b) && Grows(c, s, visiting, b, d)
    ensures Grows(c, s, visiting, a, d)
  {
    hide Topological;
  }

  lemma GroundedLonger(c: Codec, s: Store, target: Ref, a: seq<Ref>, b: seq<Ref>)
    requires Grounded(c, s, target, a) && a <= b
    ensures Grounded(c, s, target, b)
  {
    assert forall i :: 0 <= i < |a| ==> b[i] == a[i];
  }

  lemma TopologicalSnoc(c: Codec, s: Store, order: seq<Ref>, ref: Ref, e: Evidence)
    requires Topological(c, s, order) && ref !in order && Read(c, s, ref) == Some(e)
    requires forall k :: 0 <= k < |e.relations| ==> Grounded(c, s, e.relations[k], order)
    ensures Topological(c, s, order + [ref])
  {
    hide Read, Grounded;
    var longer := order + [ref];
    forall i | 0 <= i < |longer| ensures GroundedAt(c, s, longer, i) {
      assert longer[..i] == order[..i];
      if i < |order| { assert GroundedAt(c, s, order, i); } else { assert order[..i] == order; }
    }
  }

  lemma {:induction false} VisitSound(c: Codec, s: Store, ref: Ref, visiting: set<Ref>, order: seq<Ref>, depth: nat)
    requires depth <= MAX_RELATION_DEPTH + 1 && Topological(c, s, order)
    requires Visit(c, s, ref, visiting, order, depth).Some?
    ensures var after := Visit(c, s, ref, visiting, order, depth).value; Grows(c, s, visiting, order, after) && ref in after
    decreases MAX_RELATION_DEPTH + 1 - depth, 2, 0
  {
    hide Read, ResolveAll, Topological, Grounded;
    if ref !in order {
      var e := Read(c, s, ref).value;
      var below := ResolveAll(c, s, e.relations, visiting + {ref}, order, depth).value;
      ResolveAllSound(c, s, e.relations, visiting + {ref}, order, depth);
      assert ref !in below;
      TopologicalSnoc(c, s, below, ref, e);
    }
  }

  lemma {:induction false} ResolveOneSound(c: Codec, s: Store, target: Ref, visiting: set<Ref>, order: seq<Ref>, depth: nat)
    requires depth <= MAX_RELATION_DEPTH && Topological(c, s, order)
    requires ResolveOne(c, s, target, visiting, order, depth).Some?
    ensures var after := ResolveOne(c, s, target, visiting, order, depth).value;
            Grows(c, s, visiting, order, after) && Grounded(c, s, target, after)
    decreases MAX_RELATION_DEPTH + 1 - depth, 0, 0
  {
    hide Visit, Topological, Verified;
    if target.kind == "Evidence" { VisitSound(c, s, target, visiting, order, depth + 1); }
  }

  lemma {:induction false} ResolveAllSound(c: Codec, s: Store, relations: seq<Ref>, visiting: set<Ref>, order: seq<Ref>, depth: nat)
    requires depth <= MAX_RELATION_DEPTH && Topological(c, s, order)
    requires ResolveAll(c, s, relations, visiting, order, depth).Some?
    ensures var after := ResolveAll(c, s, relations, visiting, order, depth).value;
            && Grows(c, s, visiting, order, after)
            && forall k :: 0 <= k < |relations| ==> Grounded(c, s, relations[k], after)
    decreases MAX_RELATION_DEPTH + 1 - depth, 1, |relations|
  {
    hide ResolveOne, Topological, Grounded;
    if relations != [] {
      var n := |relations| - 1;
      var before := ResolveAll(c, s, relations[..n], visiting, order, depth).value;
      ResolveAllSound(c, s, relations[..n], visiting, order, depth);
      ResolveOneSound(c, s, relations[n], visiting, before, depth);
      var after := ResolveOne(c, s, relations[n], visiting, before, depth).value;
      GrowsTrans(c, s, visiting, order, before, after);
      forall k | 0 <= k < |relations| ensures Grounded(c, s, relations[k], after) {
        if k < n {
          assert relations[..n][k] == relations[k];
          GroundedLonger(c, s, relations[k], before, after);
        }
      }
    }
  }

  // ----- reachability

  ghost predicate Edge(c: Codec, s: Store, a: Ref, b: Ref)
  {
    Read(c, s, a).Some? && b in Read(c, s, a).value.relations && b.kind == "Evidence"
  }

  ghost predicate Path(c: Codec, s: Store, path: seq<Ref>)
  {
    path != [] && forall k, l :: 0 <= k && l == k + 1 < |path| ==> Edge(c, s, path[k], path[l])
  }

  lemma EdgeDescends(c: Codec, s: Store, order: seq<Ref>, i: nat, b: Ref) returns (j: nat)
    requires Topological(c, s, order) && i < |order| && Edge(c, s, order[i], b)
    ensures j < i && order[j] == b
  {
    assert GroundedAt(c, s, order, i);
    var e := Read(c, s, order[i]).value;
    var k :| 0 <= k < |e.relations| && e.relations[k] == b;
    assert Grounded(c, s, e.relations[k], order[..i]);
    j :| 0 <= j < i && order[..i][j] == b;
  }

  /** Along a path, positions in the order fall. */
  lemma {:induction false} PathDescends(c: Codec, s: Store, order: seq<Ref>, path: seq<Ref>, i: nat)
    requires Topological(c, s, order) && Path(c, s, path) && i < |order| && order[i] == path[0]
    ensures forall k :: 0 <= k < |path| ==> path[k] in order[..i + 1]
    ensures Distinct(path)
    decreases |path|
  {
    hide Topological, Edge;
    if |path| > 1 {
      var rest := path[1..];
      assert Edge(c, s, path[0], path[0 + 1]);
      var j := EdgeDescends(c, s, order, i, path[1]);
      forall k, l | 0 <= k && l == k + 1 < |rest| ensures Edge(c, s, rest[k], rest[l]) {
        assert rest[k] == path[k + 1] && rest[l] == path[l + 1];
      }
      PathDescends(c, s, order, rest, j);
      NotEarlier(c, s, order, i, j);
      assert forall k :: 1 <= k < |path| ==> path[k] == rest[k - 1];
      forall k | 1 <= k < |path| ensures path[k] in order[..i + 1] && path[k] != path[0] {
        assert rest[k - 1] in order[..j + 1];
        var m :| 0 <= m < j + 1 && order[..j + 1][m] == rest[k - 1];
        assert order[..i + 1][m] == path[k];
      }
    } else {
      assert order[..i + 1][i] == path[0];
    }
  }

  lemma NotEarlier(c: Codec, s: Store, order: seq<Ref>, i: nat, j: nat)
    requires Topological(c, s, order) && j < i < |order|
    ensures order[i] !in order[..j + 1]
  {
    hide GroundedAt;
    var head := order[..j + 1];
    assert forall m :: 0 <= m < |head| ==> head[m] == order[m];
  }

  /**
   If reading an evidence reference succeeds then everything reachable from it
   through relations is stored, valid, has its payload, has no relation that
   leads nowhere, and no path repeats a reference.
   */
  lemma ReachableIsSound(c: Codec, s: Store, ref: Ref, path: seq<Ref>)
    requires Get(c, s, ref).Some? && Path(c, s, path) && path[0] == ref
    ensures forall k :: 0 <= k < |path| ==> SoundNode(c, s, path[k])
    ensures Distinct(path)
  {
    hide Visit, Topological, Edge, SoundNode, Read;
    var order := Visit(c, s, ref, {}, [], 0).value;
    Nothing(c, s);
    VisitSound(c, s, ref, {}, [], 0);
    var i :| 0 <= i < |order| && order[i] == ref;
    PathDescends(c, s, order, path, i);
    forall k | 0 <= k < |path| ensures SoundNode(c, s, path[k]) {
      assert path[k] in order[..i + 1];
      var m :| 0 <= m < i + 1 && order[..i + 1][m] == path[k];
      ListedIsSound(c, s, order, m);
    }
  }

  lemma Nothing(c: Codec, s: Store)
    ensures Topological(c, s, [])
  {
  }

  /** Stored and valid, payload present, every relation a present payload or stored evidence. */
  ghost predicate SoundNode(c: Codec, s: Store, ref: Ref)
  {
    && Read(c, s, ref).Some?
    && var e := Read(c, s, ref).value;
       && ValidEvidence(c, e, ref) && Verified(c, s.objects, e.payload.value.digest)
       && forall k :: 0 <= k < |e.relations| ==>
            var target := e.relations[k];
            (target.kind == "Payload" && Verified(c, s.objects, target.digest)) ||
            (target.kind == "Evidence" && Read(c, s, target).Some?)
  }

  lemma ListedIsSound(c: Codec, s: Store, order: seq<Ref>, m: nat)
    requires Topological(c, s, order) && m < |order|
    ensures SoundNode(c, s, order[m])
  {
    hide Read;
    assert GroundedAt(c, s, order, m);
    var e := Read(c, s, order[m]).value;
    ReadIsValid(c, s, order[m]);
    forall k | 0 <= k < |e.relations| && e.relations[k].kind == "Evidence" ensures Read(c, s, e.relations[k]).Some? {
      assert Grounded(c, s, e.relations[k], order[..m]);
      var j :| 0 <= j < m && order[..m][j] == e.relations[k];
      assert GroundedAt(c, s, order, j);
    }
    forall k | 0 <= k < |e.relations| && e.relations[k].kind != "Evidence"
      ensures e.relations[k].kind == "Payload" && Verified(c, s.objects, e.relations[k].digest)
    {
      assert Grounded(c, s, e.relations[k], order[..m]);
    }
  }

  lemma ReadIsValid(c: Codec, s: Store, ref: Ref)
    requires Read(c, s, ref).Some?
    ensures var e := Read(c, s, ref).value; ValidEvidence(c, e, ref) && Verified(c, s.objects, e.payload.value.digest)
  {
  }

  // ----- completeness

  /** The relation tree below a reference is sound and at most `height` relations deep. */
  ghost predicate Sane(c: Codec, s: Store, ref: Ref, height: nat)
    decreases height
  {
    && Read(c, s, ref).Some?
    && forall target :: target in Read(c, s, ref).value.relations ==>
         && c.refOk(target) && target.instanceId == ""
         && ((target.kind == "Payload" && Verified(c, s.objects, target.digest)) ||
             (target.kind == "Evidence" && height > 0 && Sane(c, s, target, height - 1)))
  }

  lemma {:induction false} SaneTaller(c: Codec, s: Store, ref: Ref, height: nat)
    requires Sane(c, s, ref, height)
    ensures Sane(c, s, ref, height + 1)
    decreases height
  {
    hide Read, Verified;
    forall target | target in Read(c, s, ref).value.relations && target.kind == "Evidence"
      ensures Sane(c, s, target, height)
    {
      SaneTaller(c, s, target, height - 1);
    }
  }

  /** Nothing being visited is this shallow. */
  ghost predicate Above(c: Codec, s: Store, visiting: set<Ref>, height: nat)
  {
    forall v :: v in visiting ==> !Sane(c, s, v, height)
  }

  lemma AboveLower(c: Codec, s: Store, visiting: set<Ref>, height: nat)
    requires height > 0 && Above(c, s, visiting, height)
    ensures Above(c, s, visiting, height - 1)
  {
    hide Sane;
    forall v | v in visiting ensures !Sane(c, s, v, height - 1) {
      if Sane(c, s, v, height - 1) { SaneTaller(c, s, v, height - 1); }
    }
  }

  lemma {:induction false} VisitComplete(c: Codec, s: Store, ref: Ref, visiting: set<Ref>, order: seq<Ref>, depth: nat, height: nat)
    requires Sane(c, s, ref, height) && depth + height <= MAX_RELATION_DEPTH && Above(c, s, visiting, height)
    ensures Visit(c, s, ref, visiting, order, depth).Some?
    decreases height, 2, 0
  {
    hide Read, Above, ResolveAll;
    if height > 0 && Sane(c, s, ref, height - 1) {
      AboveLower(c, s, visiting, height);
      VisitComplete(c, s, ref, visiting, order, depth, height - 1);
    } else if ref !in order {
      NotVisiting(c, s, ref, visiting, height);
      var e := Read(c, s, ref).value;
      if height > 0 {
        AboveLower(c, s, visiting, height);
        AboveMore(c, s, ref, visiting, height - 1);
      }
      ResolveAllComplete(c, s, e.relations, visiting + {ref}, order, depth, height);
    }
  }

  lemma NotVisiting(c: Codec, s: Store, ref: Ref, visiting: set<Ref>, height: nat)
    requires Sane(c, s, ref, height) && Above(c, s, visiting, height)
    ensures ref !in visiting
  {
    hide Sane;
  }

  lemma AboveMore(c: Codec, s: Store, ref: Ref, visiting: set<Ref>, height: nat)
    requires Above(c, s, visiting, height) && !Sane(c, s, ref, height)
    ensures Above(c, s, visiting + {ref}, height)
  {
    hide Sane;
  }

  ghost predicate SaneTarget(c: Codec, s: Store, target: Ref, height: nat)
  {
    && c.refOk(target) && target.instanceId == ""
    && ((target.kind == "Payload" && Verified(c, s.objects, target.digest)) ||
        (target.kind == "Evidence" && height > 0 && Sane(c, s, target, height - 1)))
  }

  lemma {:induction false} ResolveAllComplete(c: Codec, s: Store, relations: seq<Ref>, visiting: set<Ref>, order: seq<Ref>, depth: nat, height: nat)
    requires depth + height <= MAX_RELATION_DEPTH && (height > 0 ==> Above(c, s, visiting, height - 1))
    requires forall target :: target in relations ==> SaneTarget(c, s, target, height)
    ensures ResolveAll(c, s, relations, visiting, order, depth).Some?
    decreases height, 1, |relations|
  {
    hide Above, SaneTarget, Visit, ResolveOne;
    if relations != [] {
      var n := |relations| - 1;
      assert relations[n] in relations && forall t :: t in relations[..n] ==> t in relations;
      ResolveAllComplete(c, s, relations[..n], visiting, order, depth, height);
      var before := ResolveAll(c, s, relations[..n], visiting, order, depth).value;
      ResolveOneComplete(c, s, relations[n], visiting, before, depth, height);
    }
  }

  lemma {:induction false} ResolveOneComplete(c: Codec, s: Store, target: Ref, visiting: set<Ref>, order: seq<Ref>, depth: nat, height: nat)
    requires depth + height <= MAX_RELATION_DEPTH && (height > 0 ==> Above(c, s, visiting, height - 1))
    requires SaneTarget(c, s, target, height)
    ensures ResolveOne(c, s, target, visiting, order, depth).Some?
    decreases height, 0, 0
  {
    hide Above, Visit, Sane;
    if target.kind == "Evidence" { VisitComplete(c, s, target, visiting, order, depth + 1, height - 1); }
  }

  /** The whole relation tree is sound, at any depth. */
  ghost predicate Readable(c: Codec, s: Store, ref: Ref)
  {
    exists height :: Sane(c, s, ref, height)
  }

  lemma {:induction false} ListedIsSane(c: Codec, s: Store, order: seq<Ref>, i: nat)
    requires Topological(c, s, order) && i < |order|
    ensures Sane(c, s, order[i], i)
    decreases i
  {
    hide Read, Verified;
    assert GroundedAt(c, s, order, i);
    var e := Read(c, s, order[i]).value;
    forall target | target in e.relations && target.kind == "Evidence" ensures i > 0 && Sane(c, s, target, i - 1) {
      var k :| 0 <= k < |e.relations| && e.relations[k] == target;
      assert Grounded(c, s, e.relations[k], order[..i]);
      var j :| 0 <= j < i && order[..i][j] == target;
      ListedIsSane(c, s, order, j);
      SaneUpTo(c, s, target, j, i - 1);
    }
    forall target | target in e.relations ensures c.refOk(target) && target.instanceId == ""
      ensures target.kind == "Evidence" || (target.kind == "Payload" && Verified(c, s.objects, target.digest))
    {
      var k :| 0 <= k < |e.relations| && e.relations[k] == target;
      assert Grounded(c, s, e.relations[k], order[..i]);
    }
  }

  lemma {:induction false} SaneUpTo(c: Codec, s: Store, ref: Ref, low: nat, high: nat)
    requires Sane(c, s, ref, low) && low <= high
    ensures Sane(c, s, ref, high)
    decreases high - low
  {
    hide Sane;
    if low < high {
      SaneTaller(c, s, ref, low);
      SaneUpTo(c, s, ref, low + 1, high);
    }
  }

  /**
   Reading accepts only sound relation graphs, and accepts every one that is at
   most 32 relations deep, in whatever order relations are listed or shared.
   */
  lemma GetAccepts(c: Codec, s: Store, ref: Ref)
    ensures Get(c, s, ref).Some? ==> Readable(c, s, ref)
    ensures Sane(c, s, ref, MAX_RELATION_DEPTH) ==> Get(c, s, ref).Some?
  {
    hide Visit, Topological;
    if Get(c, s, ref).Some? {
      var order := Visit(c, s, ref, {}, [], 0).value;
      Nothing(c, s);
      VisitSound(c, s, ref, {}, [], 0);
      var i :| 0 <= i < |order| && order[i] == ref;
      ListedIsSane(c, s, order, i);
    }
    if Sane(c, s, ref, MAX_RELATION_DEPTH) { VisitComplete(c, s, ref, {}, [], 0, MAX_RELATION_DEPTH); }
  }

  /** A chain of single relations. */
  ghost predicate Chain(c: Codec, s: Store, chain: seq<Ref>)
  {
    && Distinct(chain)
    && forall k, l :: 0 <= k && l == k + 1 < |chain| ==>
         Read(c, s, chain[k]).Some? && Read(c, s, chain[k]).value.relations == [chain[l]] && chain[l].kind == "Evidence"
  }

  function Visited(chain: seq<Ref>, k: nat): set<Ref>
    requires k <= |chain|
  {
    set i | 0 <= i < k :: chain[i]
  }

  /** The depth bound is real: a chain of more than 32 relations is refused, however sound. */
  lemma {:induction false} LongChainsAreRefused(c: Codec, s: Store, chain: seq<Ref>, k: nat)
    requires Chain(c, s, chain) && |chain| > MAX_RELATION_DEPTH + 1 && k <= MAX_RELATION_DEPTH + 1
    ensures Visit(c, s, chain[k], Visited(chain, k), [], k).None?
    ensures k == 0 ==> Get(c, s, chain[0]).None?
    decreases MAX_RELATION_DEPTH + 1 - k
  {
    hide Read;
    if k <= MAX_RELATION_DEPTH {
      LongChainsAreRefused(c, s, chain, k + 1);
      var l := k + 1;
      assert Read(c, s, chain[k]).Some? && Read(c, s, chain[k]).value.relations == [chain[l]];
      assert Visited(chain, k) + {chain[k]} == Visited(chain, k + 1);
      assert [chain[l]][..0] == [];
      assert ResolveAll(c, s, [chain[l]], Visited(chain, l), [], k) == ResolveOne(c, s, chain[l], Visited(chain, l), [], k);
    }
    assert Visited(chain, 0) == {};
  }

  // ----- beyond the bound, the listing order decides

  /** A chain of single relations that ends in evidence without relations. */
  ghost predicate ClosedChain(c: Codec, s: Store, chain: seq<Ref>)
  {
    && chain != [] && Chain(c, s, chain)
    && Read(c, s, chain[|chain| - 1]).Some? && Read(c, s, chain[|chain| - 1]).value.relations == []
  }

  /** One relation of a chain, followed. */
  lemma FollowChain(c: Codec, s: Store, chain: seq<Ref>, k: nat, visiting: set<Ref>, order: seq<Ref>, depth: nat)
    requires Chain(c, s, chain) && k + 1 < |chain| && depth <= MAX_RELATION_DEPTH
    requires Read(c, s, chain[k + 1]).Some? && chain[k] !in order && chain[k] !in visiting
    ensures var below := Visit(c, s, chain[k + 1], visiting + {chain[k]}, order, depth + 1);
            Visit(c, s, chain[k], visiting, order, depth) == if below.None? then None else Some(below.value + [chain[k]])
  {
    hide Read;
    var l := k + 1;
    ReadIsValid(c, s, chain[l]);
    assert Read(c, s, chain[k]).Some? && Read(c, s, chain[k]).value.relations == [chain[l]];
    OneRelation(c, s, chain[l], visiting + {chain[k]}, order, depth);
  }

  lemma OneRelation(c: Codec, s: Store, target: Ref, visiting: set<Ref>, order: seq<Ref>, depth: nat)
    requires depth <= MAX_RELATION_DEPTH && EvidenceRef(c, target)
    ensures ResolveAll(c, s, [target], visiting, order, depth) == Visit(c, s, target, visiting, order, depth + 1)
  {
    hide Visit;
    assert [target][..0] == [];
    assert ResolveAll(c, s, [], visiting, order, depth) == Some(order);
  }

  lemma TwoRelations(c: Codec, s: Store, first: Ref, second: Ref, visiting: set<Ref>, order: seq<Ref>, depth: nat)
    requires depth <= MAX_RELATION_DEPTH && EvidenceRef(c, first) && EvidenceRef(c, second)
    ensures var after := Visit(c, s, first, visiting, order, depth + 1);
            ResolveAll(c, s, [first, second], visiting, order, depth) ==
            if after.None? then None else Visit(c, s, second, visiting, after.value, depth + 1)
  {
    hide Visit;
    assert [first, second][..1] == [first];
    OneRelation(c, s, first, visiting, order, depth);
  }

  lemma AllRead(c: Codec, s: Store, chain: seq<Ref>, k: nat)
    requires ClosedChain(c, s, chain) && k < |chain|
    ensures Read(c, s, chain[k]).Some? && EvidenceRef(c, chain[k])
  {
    hide Read;
    if k + 1 < |chain| {
      var l := k + 1;
      assert Read(c, s, chain[k]).Some? && Read(c, s, chain[k]).value.relations == [chain[l]];
    }
    ReadIsValid(c, s, chain[k]);
  }

  /** Down the chain with nothing loaded: the limit is met before the end. */
  lemma {:induction false} DescentFails(c: Codec, s: Store, root: Ref, chain: seq<Ref>, k: nat)
    requires ClosedChain(c, s, chain) && |chain| == MAX_RELATION_DEPTH + 1 && k < |chain| && root !in chain
    ensures Visit(c, s, chain[k], {root} + Visited(chain, k), [], k + 1).None?
    decreases |chain| - k
  {
    hide Read, ClosedChain;
    if k + 1 < |chain| {
      DescentFails(c, s, root, chain, k + 1);
      AllRead(c, s, chain, k + 1);
      NotVisited(root, chain, k);
      ChainOf(c, s, chain);
      FollowChain(c, s, chain, k, {root} + Visited(chain, k), [], k + 1);
    }
  }

  /** Down the chain with its last two loaded: they are met within the limit. */
  lemma {:induction false} DescentMeets(c: Codec, s: Store, root: Ref, chain: seq<Ref>, order: seq<Ref>, k: nat)
    requires ClosedChain(c, s, chain) && |chain| == MAX_RELATION_DEPTH + 1 && k < |chain| - 1 && root !in chain
    requires order == [chain[|chain| - 1], chain[|chain| - 2]]
    ensures Visit(c, s, chain[k], {root} + Visited(chain, k), order, k + 1).Some?
    decreases |chain| - k
  {
    hide Read, ClosedChain;
    if k + 2 < |chain| {
      DescentMeets(c, s, root, chain, order, k + 1);
      AllRead(c, s, chain, k + 1);
      NotVisited(root, chain, k);
      ChainOf(c, s, chain);
      assert chain[k] !in order;
      FollowChain(c, s, chain, k, {root} + Visited(chain, k), order, k + 1);
    } else {
      assert chain[k] in order;
    }
  }

  lemma NotVisited(root: Ref, chain: seq<Ref>, k: nat)
    requires k < |chain| && root !in chain
    ensures Distinct(chain) ==> chain[k] !in {root} + Visited(chain, k)
    ensures ({root} + Visited(chain, k)) + {chain[k]} == {root} + Visited(chain, k + 1)
  {
    assert chain[k] in chain;
  }

  lemma ChainOf(c: Codec, s: Store, chain: seq<Ref>)
    requires ClosedChain(c, s, chain)
    ensures Chain(c, s, chain) && Distinct(chain)
  {
  }

  /** The last two of a chain load from just below a root. */
  lemma LoadEnd(c: Codec, s: Store, root: Ref, chain: seq<Ref>)
    requires ClosedChain(c, s, chain) && |chain| == MAX_RELATION_DEPTH + 1 && root !in chain
    ensures Visit(c, s, chain[|chain| - 2], {root}, [], 1) == Some([chain[|chain| - 1], chain[|chain| - 2]])
  {
    hide Read;
    var m := |chain| - 2;
    var a, z := chain[m], chain[m + 1];
    assert a in chain && z in chain && a != z;
    AllRead(c, s, chain, m + 1);
    FollowChain(c, s, chain, m, {root}, [], 1);
    assert ResolveAll(c, s, [], {root} + {a} + {z}, [], 2) == Some([]);
    assert Visit(c, s, z, {root} + {a}, [], 2) == Some([] + [z]);
    assert ([] + [z]) + [a] == [z, a];
  }

  /**
   Beyond 32 relations the order of listing decides: of two evidence records that
   list the same two relations, into the middle and to the start of one chain, the
   record that lists the middle first is readable and the other is not.
   */
  lemma ListingOrderDecides(c: Codec, s: Store, chain: seq<Ref>, one: Ref, other: Ref)
    requires ClosedChain(c, s, chain) && |chain| == MAX_RELATION_DEPTH + 1 && one !in chain && other !in chain
    requires Read(c, s, one).Some? && Read(c, s, one).value.relations == [chain[|chain| - 2], chain[0]]
    requires Read(c, s, other).Some? && Read(c, s, other).value.relations == [chain[0], chain[|chain| - 2]]
    ensures Get(c, s, one).Some? && Get(c, s, other).None?
  {
    hide Read, ClosedChain;
    var m := |chain| - 2;
    AllRead(c, s, chain, 0);
    AllRead(c, s, chain, m);
    assert Visited(chain, 0) == {};
    assert {} + {one} == {one} && {one} + Visited(chain, 0) == {one};
    assert {} + {other} == {other} && {other} + Visited(chain, 0) == {other};
    LoadEnd(c, s, one, chain);
    DescentMeets(c, s, one, chain, [chain[m + 1], chain[m]], 0);
    TwoRelations(c, s, chain[m], chain[0], {one}, [], 0);
    DescentFails(c, s, other, chain, 0);
    TwoRelations(c, s, chain[0], chain[m], {other}, [], 0);
  }
}
