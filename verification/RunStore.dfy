/**
 The local run store (internal/runstore/store.go): publish a record, then
 repoint `latest`, with a crash possible between any two file-system steps and
 torn writes of temporary files.  JSON, digests and identifier syntax are
 parameters.
 */
module RunStore {
  import opened Common

  const RECORD_SCHEMA := "urn:agentapi-doctor:local-run-record:v1alpha2"
  const LEGACY_SCHEMA := "urn:agentapi-doctor:local-run-record:v1alpha1"
  const POINTER_LIMIT := 1048576

  datatype Record = Record(schema: string, runId: string, bundleDigest: string, bundle: Bytes, planDigest: string, plan: Bytes)

  datatype Pointer = Pointer(schema: string, runId: string, recordDigest: string)

  datatype Payload = Payload(bundle: Bytes, plan: Bytes)

  datatype Codec = Codec(
    digest: Bytes -> string,
    digestOk: string -> bool,
    uuid: string -> bool,
    foldsToLatest: string -> bool,
    canonical: Bytes -> bool,
    encodeRecord: Record -> Bytes,
    header: Bytes -> Option<string>,
    wireV2: Bytes -> Option<Record>,
    wireV1: Bytes -> Option<Record>,
    encodePointer: Pointer -> Bytes,
    wirePointer: Bytes -> Option<Pointer>,
    maxBytes: nat)

  predicate IdOk(c: Codec, id: string) { !c.foldsToLatest(id) && c.uuid(id) }

  /** requireCanonicalJSON. */
  predicate Canonical(c: Codec, raw: Bytes) { 0 < |raw| <= c.maxBytes && c.canonical(raw) }

  /** The files below the root: published run directories, temporary ones, and the pointer. */
  datatype Disk = Disk(runs: map<string, Bytes>, temporaries: map<nat, Bytes>, latest: Option<Bytes>)

  // ----- reading

  datatype Error = Missing | Corrupt | LatestForbidden | InvalidId

  /** readRegular. */
  function Regular(raw: Bytes, limit: nat): Result<Bytes, Error>
  {
    if 0 < |raw| <= limit then Ok(raw) else Err(Corrupt)
  }

  function ReadRun(c: Codec, d: Disk, id: string): Result<Bytes, Error>
  {
    if id in d.runs then Regular(d.runs[id], c.maxBytes) else Err(Missing)
  }

  predicate SupportedPointer(schema: string)
  {
    schema == RECORD_SCHEMA + ":latest" || schema == LEGACY_SCHEMA + ":latest"
  }

  function ReadLatest(c: Codec, d: Disk): Result<Pointer, Error>
  {
    if d.latest.None? then Err(Missing)
    else if !(0 < |d.latest.value| <= POINTER_LIMIT) || !c.canonical(d.latest.value) then Err(Corrupt)
    else
      var p := c.wirePointer(d.latest.value);
      if p.Some? && SupportedPointer(p.value.schema) && IdOk(c, p.value.runId) && c.digestOk(p.value.recordDigest)
      then Ok(p.value) else Err(Corrupt)
  }

  /** decodeRecord: the current schema carries a plan, the legacy one does not. */
  function Decode(c: Codec, raw: Bytes, id: string): Option<Record>
  {
    var version := c.header(raw);
    var wire :=
      if version == Some(RECORD_SCHEMA) then c.wireV2(raw)
      else if version == Some(LEGACY_SCHEMA) then c.wireV1(raw)
      else None;
    if wire.None? then None
    else
      var record := wire.value;
      if version == Some(RECORD_SCHEMA) && !(c.digest(record.plan) == record.planDigest && Canonical(c, record.plan)) then None
      else if record.runId != id || c.digest(record.bundle) != record.bundleDigest || !Canonical(c, record.bundle) then None
      else Some(record)
  }

  /** The record in a run directory, complete and well formed. */
  function Complete(c: Codec, d: Disk, id: string): Option<Record>
  {
    if id in d.runs && 0 < |d.runs[id]| <= c.maxBytes && c.canonical(d.runs[id]) then Decode(c, d.runs[id], id) else None
  }

  function Resolve(c: Codec, d: Disk, reference: string, allowLatest: bool): Result<string, Error>
  {
    if c.foldsToLatest(reference) then
      if !allowLatest then Err(LatestForbidden)
      else
        var p := ReadLatest(c, d);
        if p.Err? then Err(p.error)
        else
          var raw := ReadRun(c, d, p.value.runId);
          if raw.Err? || c.digest(raw.value) != p.value.recordDigest || !Canonical(c, raw.value) then Err(Corrupt)
          else
            var record := Decode(c, raw.value, p.value.runId);
            if record.None? || p.value.schema != record.value.schema + ":latest" then Err(Corrupt) else Ok(p.value.runId)
    else if c.uuid(reference) then Ok(reference)
    else Err(InvalidId)
  }

  function GetById(c: Codec, d: Disk, id: string): Result<Record, Error>
  {
    var raw := ReadRun(c, d, id);
    if raw.Err? then Err(raw.error)
    else if !c.canonical(raw.value) then Err(Corrupt)
    else
      var record := Decode(c, raw.value, id);
      if record.None? then Err(Corrupt) else Ok(record.value)
  }

  function Get(c: Codec, d: Disk, reference: string, allowLatest: bool): Result<Record, Error>
  {
    if c.foldsToLatest(reference) then
      if !allowLatest then Err(LatestForbidden)
      else
        var p := ReadLatest(c, d);
        if p.Err? then Err(p.error)
        else
          var raw := ReadRun(c, d, p.value.runId);
          if raw.Err? || c.digest(raw.value) != p.value.recordDigest then Err(Corrupt)
          else
            var record := GetById(c, d, p.value.runId);
            if record.Err? || p.value.schema != record.value.schema + ":latest" then Err(Corrupt) else record
    else if c.uuid(reference) then GetById(c, d, reference)
    else Err(InvalidId)
  }

  // ----- putting

  /**
   One Put: the names the operating system gives its temporaries, how many
   file-system steps happen before a crash, and how much of a write in progress
   reaches the disk.
   */
  datatype Request = Request(id: string, payload: Payload, directory: nat, pointer: nat, crash: nat, torn: nat)

  datatype Outcome = Rejected | Exists | IoError | Crashed | Stored(digest: string)

  function RecordOf(c: Codec, r: Request): Record
  {
    Record(RECORD_SCHEMA, r.id, c.digest(r.payload.bundle), r.payload.bundle, c.digest(r.payload.plan), r.payload.plan)
  }

  function Encoded(c: Codec, r: Request): Bytes { c.encodeRecord(RecordOf(c, r)) }

  function PointerTo(c: Codec, r: Request): Bytes
  {
    c.encodePointer(Pointer(RECORD_SCHEMA + ":latest", r.id, c.digest(Encoded(c, r))))
  }

  /** What Put demands before it touches the disk; an empty encoding would fail its read-back. */
  predicate Acceptable(c: Codec, r: Request)
  {
    && IdOk(c, r.id) && Canonical(c, r.payload.bundle) && Canonical(c, r.payload.plan)
    && 0 < |Encoded(c, r)| <= c.maxBytes
  }

  function Prefix(data: Bytes, n: nat): Bytes { if n < |data| then data[..n] else data }

  function Publish(c: Codec, d: Disk, r: Request): Disk
  {
    d.(runs := d.runs[r.id := Encoded(c, r)])
  }

  function Repoint(c: Codec, d: Disk, r: Request): Disk
  {
    Publish(c, d, r).(latest := Some(PointerTo(c, r)))
  }

  /** The disk and the outcome after one Put, finished or not. */
  function After(c: Codec, d: Disk, r: Request): (Disk, Outcome)
  {
    if !Acceptable(c, r) then (d, Rejected)
    else if r.crash == 0 then (d, Crashed)
    else if r.directory in d.temporaries then (d, IoError)
    else if r.crash == 1 then (d.(temporaries := d.temporaries[r.directory := Prefix(Encoded(c, r), r.torn)]), Crashed)
    else if r.crash == 2 then (d.(temporaries := d.temporaries[r.directory := Encoded(c, r)]), Crashed)
    else if r.id in d.runs then (d, Exists)
    else if r.crash == 3 then (Publish(c, d, r), Crashed)
    else if r.pointer in d.temporaries then (Publish(c, d, r), IoError)
    else if r.crash == 4 then (Publish(c, d, r).(temporaries := d.temporaries[r.pointer := Prefix(PointerTo(c, r), r.torn)]), Crashed)
    else if r.crash == 5 then (Publish(c, d, r).(temporaries := d.temporaries[r.pointer := PointerTo(c, r)]), Crashed)
    else if r.crash == 6 then (Repoint(c, d, r), Crashed)
    else (Repoint(c, d, r), Stored(c.digest(Encoded(c, r))))
  }

  class Runs {
    const codec: Codec
    var runs: map<string, Bytes>
    var temporaries: map<nat, Bytes>
    var latest: Option<Bytes>

    function Contents(): Disk
      reads this
    {
      Disk(runs, temporaries, latest)
    }

    constructor (codec: Codec, disk: Disk)
      ensures this.codec == codec && Contents() == disk
    {
      this.codec, runs, temporaries, latest := codec, disk.runs, disk.temporaries, disk.latest;
    }

    method Put(r: Request) returns (outcome: Outcome)
      modifies this
      ensures (Contents(), outcome) == After(codec, old(Contents()), r)
    {
      hide Acceptable, Encoded, Prefix;
      if !Acceptable(codec, r) { return Rejected; }
      var encoded := Encoded(codec, r);
      if r.crash == 0 { return Crashed; }
      if r.directory in temporaries { return IoError; }
      temporaries := temporaries[r.directory := []];
      if r.crash == 1 {
        temporaries := temporaries[r.directory := Prefix(encoded, r.torn)];
        assert temporaries == old(temporaries)[r.directory := Prefix(encoded, r.torn)];
        return Crashed;
      }
      temporaries := temporaries[r.directory := encoded];
      assert temporaries == old(temporaries)[r.directory := encoded];
      if r.crash == 2 { return Crashed; }
      if r.id in runs {
        temporaries := temporaries - {r.directory};
        assert temporaries == old(temporaries);
        return Exists;
      }
      runs, temporaries := runs[r.id := temporaries[r.directory]], temporaries - {r.directory};
      assert temporaries == old(temporaries);
      if r.crash == 3 { return Crashed; }
      outcome := ReplaceLatest(r, codec.encodePointer(Pointer(RECORD_SCHEMA + ":latest", r.id, codec.digest(encoded))));
      if outcome.Stored? { outcome := Stored(codec.digest(encoded)); }
    }

    /** A new pointer file, written and then renamed over the old one. */
    method ReplaceLatest(r: Request, data: Bytes) returns (outcome: Outcome)
      requires r.crash > 3
      modifies this
      ensures runs == old(runs)
      ensures outcome.IoError? <==> r.pointer in old(temporaries)
      ensures outcome.Stored? <==> r.pointer !in old(temporaries) && r.crash > 6
      ensures !outcome.IoError? && !outcome.Stored? ==> outcome.Crashed?
      ensures latest == if r.pointer !in old(temporaries) && r.crash > 5 then Some(data) else old(latest)
      ensures temporaries ==
              if r.pointer !in old(temporaries) && r.crash <= 5
              then old(temporaries)[r.pointer := if r.crash == 4 then Prefix(data, r.torn) else data]
              else old(temporaries)
    {
      if r.pointer in temporaries { return IoError; }
      temporaries := temporaries[r.pointer := []];
      if r.crash == 4 {
        temporaries := temporaries[r.pointer := Prefix(data, r.torn)];
        return Crashed;
      }
      temporaries := temporaries[r.pointer := data];
      if r.crash == 5 { return Crashed; }
      latest, temporaries := Some(temporaries[r.pointer]), temporaries - {r.pointer};
      assert temporaries == old(temporaries);
      if r.crash == 6 { return Crashed; }
      return Stored("");
    }
  }

  // ----- what is assumed of the codec

  /** Strict decoding inverts canonical encoding, for records of canonical documents and for pointers. */
  ghost predicate Lawful(c: Codec)
  {
    && (forall r: Record :: r.schema == RECORD_SCHEMA && c.canonical(r.bundle) && c.canonical(r.plan) ==> RoundTrips(c, r))
    && (forall p: Pointer :: IdOk(c, p.runId) && c.digestOk(p.recordDigest) && SupportedPointer(p.schema) ==> PointerRoundTrips(c, p))
    && (forall b: Bytes :: c.digestOk(c.digest(b)))
    && c.foldsToLatest("latest")
  }

  ghost predicate RoundTrips(c: Codec, r: Record)
  {
    var raw := c.encodeRecord(r);
    c.canonical(raw) && c.header(raw) == Some(RECORD_SCHEMA) && c.wireV2(raw) == Some(r)
  }

  ghost predicate PointerRoundTrips(c: Codec, p: Pointer)
  {
    var raw := c.encodePointer(p);
    c.canonical(raw) && 0 < |raw| <= POINTER_LIMIT && c.wirePointer(raw) == Some(p)
  }

  // ----- the invariant

  /** `latest` names a complete record by its digest and schema. */
  ghost predicate PointsTo(c: Codec, d: Disk, id: string)
  {
    && Complete(c, d, id).Some?
    && ReadLatest(c, d) == Ok(Pointer(Complete(c, d, id).value.schema + ":latest", id, c.digest(d.runs[id])))
  }

  /** Every published record is complete, and the pointer, if any, names one. */
  ghost predicate Good(c: Codec, d: Disk)
  {
    && (forall id :: id in d.runs ==> Complete(c, d, id).Some?)
    && (d.latest.Some? ==> exists id :: PointsTo(c, d, id))
  }

  const EMPTY := Disk(map[], map[], None)

  /** Records already on the disk are untouched. */
  predicate RunsKept(a: Disk, b: Disk)
  {
    forall id :: id in a.runs ==> id in b.runs && b.runs[id] == a.runs[id]
  }

  lemma PublishedIsComplete(c: Codec, d: Disk, r: Request)
    requires Lawful(c) && Acceptable(c, r) && r.id in d.runs && d.runs[r.id] == Encoded(c, r)
    ensures Complete(c, d, r.id) == Some(RecordOf(c, r))
  {
    assert RoundTrips(c, RecordOf(c, r));
  }

  lemma KeptIsComplete(c: Codec, a: Disk, b: Disk, id: string)
    requires id in a.runs && id in b.runs && a.runs[id] == b.runs[id]
    ensures Complete(c, a, id) == Complete(c, b, id)
  {
  }

  lemma PointsStays(c: Codec, a: Disk, b: Disk, id: string)
    requires PointsTo(c, a, id) && RunsKept(a, b) && a.latest == b.latest
    ensures PointsTo(c, b, id)
  {
    hide Decode;
    KeptIsComplete(c, a, b, id);
  }

  /** The disk after a Put that published nothing. */
  lemma QuietKeeps(c: Codec, a: Disk, b: Disk)
    requires Good(c, a) && a.runs == b.runs && a.latest == b.latest
    ensures Good(c, b) && RunsKept(a, b)
  {
    hide Complete, ReadLatest;
    forall id | id in b.runs ensures Complete(c, b, id).Some? { KeptIsComplete(c, a, b, id); }
    if b.latest.Some? {
      var id :| PointsTo(c, a, id);
      PointsStays(c, a, b, id);
    }
  }

  lemma PublishKeeps(c: Codec, a: Disk, b: Disk, r: Request)
    requires Lawful(c) && Acceptable(c, r) && Good(c, a) && r.id !in a.runs
    requires b.runs == a.runs[r.id := Encoded(c, r)]
    ensures forall id :: id in b.runs ==> Complete(c, b, id).Some?
    ensures RunsKept(a, b) && Complete(c, b, r.id) == Some(RecordOf(c, r))
    ensures a.latest == b.latest ==> Good(c, b)
  {
    hide Complete, ReadLatest, Lawful, Acceptable, Encoded, PointsTo;
    PublishedIsComplete(c, b, r);
    forall id | id in b.runs ensures Complete(c, b, id).Some? {
      if id != r.id { KeptIsComplete(c, a, b, id); }
    }
    if a.latest == b.latest && b.latest.Some? {
      var id :| PointsTo(c, a, id);
      PointsStays(c, a, b, id);
    }
  }

  lemma PointerReads(c: Codec, d: Disk, r: Request)
    requires Lawful(c) && Acceptable(c, r) && d.latest == Some(PointerTo(c, r))
    ensures ReadLatest(c, d) == Ok(Pointer(RECORD_SCHEMA + ":latest", r.id, c.digest(Encoded(c, r))))
  {
    var p := Pointer(RECORD_SCHEMA + ":latest", r.id, c.digest(Encoded(c, r)));
    assert PointerRoundTrips(c, p);
  }

  lemma RepointKeeps(c: Codec, d: Disk, r: Request)
    requires Lawful(c) && Acceptable(c, r) && Good(c, d) && r.id !in d.runs
    ensures Good(c, Repoint(c, d, r)) && PointsTo(c, Repoint(c, d, r), r.id)
  {
    hide Complete, ReadLatest, Lawful, Acceptable, Encoded, PointerTo;
    var after := Repoint(c, d, r);
    PublishKeeps(c, d, after, r);
    PointerReads(c, after, r);
    assert after.runs[r.id] == Encoded(c, r) && Complete(c, after, r.id).value.schema == RECORD_SCHEMA;
    assert PointsTo(c, after, r.id);
  }

  /** The request got as far as publishing its record. */
  ghost predicate Publishes(c: Codec, d: Disk, r: Request)
  {
    Acceptable(c, r) && r.directory !in d.temporaries && r.crash >= 3 && r.id !in d.runs
  }

  lemma AfterRuns(c: Codec, d: Disk, r: Request)
    ensures var out := After(c, d, r);
            && out.0.runs == (if Publishes(c, d, r) then d.runs[r.id := Encoded(c, r)] else d.runs)
            && (out.0.latest == d.latest || (Publishes(c, d, r) && out.0.latest == Some(PointerTo(c, r)) && out.0.runs == Repoint(c, d, r).runs))
            && (out.1.Stored? ==> Publishes(c, d, r) && out.0.latest == Some(PointerTo(c, r)))
  {
    hide Acceptable, Encoded, PointerTo;
  }

  /**
   Whatever the crash point: published records never change, a newly published
   one decodes to exactly the bundle and plan put, and `latest` names a
   complete record or did not move.
   */
  lemma PutKeeps(c: Codec, d: Disk, r: Request)
    requires Lawful(c) && Good(c, d)
    ensures var out := After(c, d, r);
            && Good(c, out.0) && RunsKept(d, out.0)
            && (forall id :: id in out.0.runs && id !in d.runs ==>
                  id == r.id && GetById(c, out.0, id) == Ok(RecordOf(c, r)))
            && (out.0.latest != d.latest ==> PointsTo(c, out.0, r.id))
            && (out.1.Stored? ==> PointsTo(c, out.0, r.id))
  {
    hide After, Acceptable, Lawful, Encoded, PointerTo, Complete, Good, ReadLatest, GetById, PointsTo;
    var out := After(c, d, r);
    AfterRuns(c, d, r);
    if Publishes(c, d, r) {
      PublishKeeps(c, d, out.0, r);
      CompleteGets(c, out.0, r.id);
      if out.0.latest == Some(PointerTo(c, r)) {
        RepointKeeps(c, d, r);
        SameDisk(c, Repoint(c, d, r), out.0, r.id);
      }
    } else {
      QuietKeeps(c, d, out.0);
    }
  }

  /** Temporaries do not matter. */
  lemma SameDisk(c: Codec, a: Disk, b: Disk, id: string)
    requires a.runs == b.runs && a.latest == b.latest && Good(c, a) && PointsTo(c, a, id)
    ensures Good(c, b) && PointsTo(c, b, id)
  {
    hide Complete, ReadLatest, PointsTo, Good;
    QuietKeeps(c, a, b);
    PointsStays(c, a, b, id);
  }

  lemma CompleteGets(c: Codec, d: Disk, id: string)
    requires Complete(c, d, id).Some?
    ensures GetById(c, d, id) == Ok(Complete(c, d, id).value)
  {
  }

  // ----- reading back

  /** `latest` resolves to the named run and reads exactly what that run's identifier reads. */
  lemma LatestReadsTheRun(c: Codec, d: Disk, id: string)
    requires Lawful(c) && PointsTo(c, d, id)
    ensures Get(c, d, "latest", true) == Get(c, d, id, true) == Get(c, d, id, false) == Ok(Complete(c, d, id).value)
    ensures Resolve(c, d, "latest", true) == Ok(id)
    ensures Get(c, d, "latest", false) == Err(LatestForbidden)
  {
    CompleteGets(c, d, id);
  }

  /** In a good store `latest` is readable exactly when the pointer exists. */
  lemma LatestExists(c: Codec, d: Disk)
    requires Lawful(c) && Good(c, d)
    ensures Get(c, d, "latest", true).Ok? <==> d.latest.Some?
  {
    hide PointsTo, GetById;
    if d.latest.Some? {
      var id :| PointsTo(c, d, id);
      LatestReadsTheRun(c, d, id);
    } else {
      assert c.foldsToLatest("latest");
    }
  }

  /** A Put that reports success left its record as the latest run. */
  lemma StoredIsLatest(c: Codec, d: Disk, r: Request)
    requires Lawful(c) && Good(c, d) && After(c, d, r).1.Stored?
    ensures Get(c, After(c, d, r).0, "latest", true) == Ok(RecordOf(c, r)) == Get(c, After(c, d, r).0, r.id, false)
  {
    hide After, GetById, PointsTo, ReadLatest, Lawful, Acceptable;
    var out := After(c, d, r);
    PutKeeps(c, d, r);
    AfterRuns(c, d, r);
    LatestReadsTheRun(c, out.0, r.id);
    PublishedIsComplete(c, out.0, r);
  }

  // ----- exactly what is read and what is put

  /** Some bytes, not too many, in canonical form. */
  predicate Document(c: Codec, raw: Bytes) { raw != [] && |raw| <= c.maxBytes && c.canonical(raw) }

  /** The run's file holds this record: of the current schema with its plan, or of the legacy one without. */
  predicate Readable(c: Codec, d: Disk, id: string, record: Record)
  {
    && id in d.runs && Document(c, d.runs[id]) && record.runId == id
    && c.digest(record.bundle) == record.bundleDigest && Document(c, record.bundle)
    && ( || (&& c.header(d.runs[id]) == Some("urn:agentapi-doctor:local-run-record:v1alpha2")
             && c.wireV2(d.runs[id]) == Some(record) && c.digest(record.plan) == record.planDigest && Document(c, record.plan))
         || (c.header(d.runs[id]) == Some("urn:agentapi-doctor:local-run-record:v1alpha1") && c.wireV1(d.runs[id]) == Some(record)))
  }

  /** A run reads as a record exactly when its file holds it; it is missing exactly when there is no file, and corrupt otherwise. */
  lemma ReadsIff(c: Codec, d: Disk, id: string, record: Record)
    ensures GetById(c, d, id) == Ok(record) <==> Readable(c, d, id, record)
    ensures GetById(c, d, id) == Err(Missing) <==> id !in d.runs
    ensures GetById(c, d, id).Err? ==> GetById(c, d, id).error in {Missing, Corrupt}
  {
  }

  /** The latest file refers to this run by its digest, under one of the two schemas for it. */
  predicate PointerSays(c: Codec, d: Disk, p: Pointer)
  {
    && d.latest.Some? && d.latest.value != [] && |d.latest.value| <= 1024 * 1024 && c.canonical(d.latest.value)
    && c.wirePointer(d.latest.value) == Some(p)
    && p.schema in {"urn:agentapi-doctor:local-run-record:v1alpha2:latest", "urn:agentapi-doctor:local-run-record:v1alpha1:latest"}
    && c.uuid(p.runId) && !c.foldsToLatest(p.runId) && c.digestOk(p.recordDigest)
  }

  lemma PointerIff(c: Codec, d: Disk, p: Pointer)
    ensures ReadLatest(c, d) == Ok(p) <==> PointerSays(c, d, p)
  {
    assert RECORD_SCHEMA + ":latest" == "urn:agentapi-doctor:local-run-record:v1alpha2:latest";
    assert LEGACY_SCHEMA + ":latest" == "urn:agentapi-doctor:local-run-record:v1alpha1:latest";
  }

  /** `latest` reads as a record exactly when the latest file gives the digest and schema of a run that reads as it. */
  lemma LatestIff(c: Codec, d: Disk, reference: string, record: Record)
    requires c.foldsToLatest(reference)
    ensures Get(c, d, reference, true) == Ok(record) <==>
            exists p: Pointer ::
              && PointerSays(c, d, p) && Readable(c, d, p.runId, record)
              && c.digest(d.runs[p.runId]) == p.recordDigest && p.schema == record.schema + ":latest"
    ensures Get(c, d, reference, false) == Err(LatestForbidden) && Resolve(c, d, reference, false) == Err(LatestForbidden)
  {
    hide PointerSays, ReadLatest, GetById, Readable;
    var got := ReadLatest(c, d);
    if got.Ok? {
      PointerIff(c, d, got.value);
      ReadsIff(c, d, got.value.runId, record);
      ReadRunIff(c, d, got.value.runId, record);
    }
    forall p: Pointer | PointerSays(c, d, p) ensures got == Ok(p) { PointerIff(c, d, p); }
  }

  lemma ReadRunIff(c: Codec, d: Disk, id: string, record: Record)
    ensures Readable(c, d, id, record) ==> ReadRun(c, d, id) == Ok(d.runs[id])
    ensures ReadRun(c, d, id).Ok? ==> id in d.runs && ReadRun(c, d, id).value == d.runs[id]
  {
  }

  /** Any other reference is a run identifier or refused. */
  lemma NamedIff(c: Codec, d: Disk, reference: string, allowLatest: bool)
    requires !c.foldsToLatest(reference)
    ensures Get(c, d, reference, allowLatest) == if c.uuid(reference) then GetById(c, d, reference) else Err(InvalidId)
    ensures Resolve(c, d, reference, allowLatest) == if c.uuid(reference) then Ok(reference) else Err(InvalidId)
  {
  }

  /** What a put demands: a run identifier, two documents, and a record that fits. */
  predicate Demands(c: Codec, r: Request)
  {
    && c.uuid(r.id) && !c.foldsToLatest(r.id) && Document(c, r.payload.bundle) && Document(c, r.payload.plan)
    && Encoded(c, r) != [] && |Encoded(c, r)| <= c.maxBytes
  }

  /** How far a put gets: success, existence and rejection exactly, what it published and whether it repointed. */
  lemma PutIff(c: Codec, d: Disk, r: Request)
    ensures var (e, outcome) := After(c, d, r);
            var begun := Demands(c, r) && r.directory !in d.temporaries && r.crash >= 3;
            && (outcome.Rejected? <==> !Demands(c, r))
            && (outcome.Exists? <==> begun && r.id in d.runs)
            && (outcome.Stored? <==> begun && r.id !in d.runs && r.pointer !in d.temporaries && r.crash > 6)
            && e.runs == (if begun && r.id !in d.runs then d.runs[r.id := Encoded(c, r)] else d.runs)
            && e.latest == if begun && r.id !in d.runs && r.pointer !in d.temporaries && r.crash > 5 then Some(PointerTo(c, r)) else d.latest
  {
    hide Encoded, PointerTo, Document;
    DemandsIff(c, r);
  }

  lemma DemandsIff(c: Codec, r: Request)
    ensures Demands(c, r) <==> Acceptable(c, r)
  {
    hide Encoded;
  }

  /** An undisturbed put of a new run succeeds, and both its identifier and `latest` then read what was put. */
  lemma UndisturbedPutIsRead(c: Codec, d: Disk, r: Request)
    requires Lawful(c) && Good(c, d) && Demands(c, r) && r.id !in d.runs
    requires r.directory !in d.temporaries && r.pointer !in d.temporaries && r.crash > 6
    ensures After(c, d, r).1.Stored? && After(c, d, r).1.digest == c.digest(After(c, d, r).0.runs[r.id])
    ensures var latest := Get(c, After(c, d, r).0, "latest", true);
            && latest == Get(c, After(c, d, r).0, r.id, false) && latest.Ok?
            && latest.value.runId == r.id && latest.value.bundle == r.payload.bundle && latest.value.plan == r.payload.plan
  {
    hide Lawful, Good, Get, Encoded, Demands;
    DemandsIff(c, r);
    PutIff(c, d, r);
    StoredIsLatest(c, d, r);
  }

  // ----- histories

  /** The disk after serialized Puts, each finished or crashed. */
  function History(c: Codec, d: Disk, requests: seq<Request>): Disk
  {
    if requests == [] then d else After(c, History(c, d, requests[..|requests| - 1]), requests[|requests| - 1]).0
  }

  lemma {:induction false} HistoryKeeps(c: Codec, d: Disk, requests: seq<Request>)
    requires Lawful(c) && Good(c, d)
    ensures Good(c, History(c, d, requests)) && RunsKept(d, History(c, d, requests))
  {
    hide Good, Lawful, After;
    if requests != [] {
      var n := |requests| - 1;
      HistoryKeeps(c, d, requests[..n]);
      PutKeeps(c, History(c, d, requests[..n]), requests[n]);
    }
  }

  /** Some request put exactly this record. */
  ghost predicate WasPut(c: Codec, requests: seq<Request>, record: Record)
  {
    exists k :: 0 <= k < |requests| && RecordOf(c, requests[k]) == record
  }

  lemma WasPutSnoc(c: Codec, requests: seq<Request>, last: Request, record: Record)
    requires WasPut(c, requests, record) || record == RecordOf(c, last)
    ensures WasPut(c, requests + [last], record)
  {
    hide RecordOf;
    var longer := requests + [last];
    if WasPut(c, requests, record) {
      var k :| 0 <= k < |requests| && RecordOf(c, requests[k]) == record;
      assert longer[k] == requests[k];
    } else {
      assert longer[|requests|] == last;
    }
  }

  /** Everything readable in a store grown from nothing is the bundle and plan of some Put, under its identifier. */
  lemma {:induction false} EveryRecordWasPut(c: Codec, requests: seq<Request>, id: string)
    requires Lawful(c) && id in History(c, EMPTY, requests).runs
    ensures var r := GetById(c, History(c, EMPTY, requests), id); r.Ok? && r.value.runId == id && WasPut(c, requests, r.value)
  {
    hide Good, Lawful, After, Complete, WasPut, GetById;
    if requests != [] {
      var n := |requests| - 1;
      var before := History(c, EMPTY, requests[..n]);
      EmptyIsGood(c);
      HistoryKeeps(c, EMPTY, requests[..n]);
      PutKeeps(c, before, requests[n]);
      assert requests == requests[..n] + [requests[n]];
      if id in before.runs {
        EveryRecordWasPut(c, requests[..n], id);
        KeptReads(c, before, History(c, EMPTY, requests), id);
      }
      WasPutSnoc(c, requests[..n], requests[n], GetById(c, History(c, EMPTY, requests), id).value);
    }
  }

  lemma EmptyIsGood(c: Codec)
    ensures Good(c, EMPTY)
  {
  }

  lemma KeptReads(c: Codec, a: Disk, b: Disk, id: string)
    requires id in a.runs && RunsKept(a, b)
    ensures GetById(c, a, id) == GetById(c, b, id)
  {
  }

  lemma {:induction false} HistorySplits(c: Codec, d: Disk, before: seq<Request>, after: seq<Request>)
    ensures History(c, d, before + after) == History(c, History(c, d, before), after)
  {
    hide After;
    if after == [] {
      assert before + after == before;
    } else {
      var n := |after| - 1;
      HistorySplits(c, d, before, after[..n]);
      assert (before + after)[..|before + after| - 1] == before + after[..n];
    }
  }

  /** A published record reads the same in every later state, whatever crashes. */
  lemma RecordsAreForever(c: Codec, before: seq<Request>, after: seq<Request>, id: string)
    requires Lawful(c) && id in History(c, EMPTY, before).runs
    ensures GetById(c, History(c, EMPTY, before + after), id) == GetById(c, History(c, EMPTY, before), id)
  {
    hide Good, Lawful, GetById, History;
    EmptyIsGood(c);
    HistoryKeeps(c, EMPTY, before);
    HistoryKeeps(c, History(c, EMPTY, before), after);
    HistorySplits(c, EMPTY, before, after);
    KeptReads(c, History(c, EMPTY, before), History(c, EMPTY, before + after), id);
  }
}
