/**
 The hash-chained run journal (internal/provenance/journal.go): appending,
 verifying, and its JSON Lines form.  The event digest, the JSON encoding of an
 event and the syntax of identifiers are parameters.
 */
module Journal {
  import opened Common
  import Lines = SseFraming

  const SCHEMA := "urn:agentapi-doctor:run-journal-event:v1alpha1"
  const MAX_EVENT_BYTES := 1048576
  const ZERO_DIGEST := "sha256:0000000000000000000000000000000000000000000000000000000000000000"

  datatype RunStatus = Planned | Running | Completed | Cancelled | Errored | Unknown(text: string)

  /** The digested part of an event; times are numbers with zero meaning unset. */
  datatype Body = Body(
    schema: string, runId: string, sequence: nat, previous: string, eventType: string,
    status: RunStatus, occurredAt: int, offset: int, payloadDigest: string)

  datatype Event = Event(body: Body, digest: string)

  datatype Input = Input(eventType: string, status: RunStatus, occurredAt: int, offset: int, payloadDigest: string)

  datatype Rules = Rules(
    digest: Body -> string,
    digestOk: string -> bool,
    idOk: string -> bool,
    blank: string -> bool,
    encode: Event -> Bytes,
    wire: Bytes -> Option<Event>)

  predicate Terminal(s: RunStatus) { s == Completed || s == Cancelled || s == Errored }

  /** validateTransition; no previous status means the first event. */
  predicate Follows(previous: Option<RunStatus>, next: RunStatus)
  {
    || (previous == None && next == Planned)
    || (previous == Some(Planned) && next == Running)
    || (previous == Some(Running) && (next == Running || Terminal(next)))
  }

  /** What the chain carries from one event to the next. */
  datatype Link = Link(previous: string, status: Option<RunStatus>, offset: int)

  function LinkAfter(events: seq<Event>): Link
  {
    if events == [] then Link(ZERO_DIGEST, None, -1)
    else
      var last := events[|events| - 1];
      Link(last.digest, Some(last.body.status), last.body.offset)
  }

  predicate FieldsOk(rules: Rules, b: Body, offset: int)
  {
    b.offset >= 0 && b.offset >= offset && b.occurredAt != 0 && !rules.blank(b.eventType) && rules.digestOk(b.payloadDigest)
  }

  /** The event may stand at this place of the chain. */
  predicate Fits(rules: Rules, runId: string, sequence: nat, link: Link, e: Event)
  {
    && e.body.schema == SCHEMA && e.body.runId == runId && e.body.sequence == sequence && e.body.previous == link.previous
    && Follows(link.status, e.body.status) && FieldsOk(rules, e.body, link.offset)
    && e.digest == rules.digest(e.body)
  }

  predicate Verified(rules: Rules, runId: string, events: seq<Event>)
  {
    events == [] ||
    var n := |events| - 1;
    Verified(rules, runId, events[..n]) && Fits(rules, runId, n + 1, LinkAfter(events[..n]), events[n])
  }

  function Proposed(rules: Rules, runId: string, events: seq<Event>, i: Input): Event
  {
    var body := Body(SCHEMA, runId, |events| + 1, LinkAfter(events).previous, i.eventType, i.status, i.occurredAt, i.offset, i.payloadDigest);
    Event(body, rules.digest(body))
  }

  predicate Admits(rules: Rules, events: seq<Event>, i: Input)
  {
    && Follows(LinkAfter(events).status, i.status) && !rules.blank(i.eventType) && i.occurredAt != 0
    && i.offset >= 0 && i.offset >= LinkAfter(events).offset && rules.digestOk(i.payloadDigest)
  }

  lemma AppendVerifies(rules: Rules, runId: string, events: seq<Event>, e: Event)
    ensures Verified(rules, runId, events + [e]) <==>
            Verified(rules, runId, events) && Fits(rules, runId, |events| + 1, LinkAfter(events), e)
  {
    assert (events + [e])[..|events|] == events;
  }

  /** Prefixes of a verified journal are verified. */
  lemma {:induction false} PrefixVerifies(rules: Rules, runId: string, events: seq<Event>, k: nat)
    requires Verified(rules, runId, events) && k <= |events|
    ensures Verified(rules, runId, events[..k])
    decreases |events|
  {
    hide Fits;
    if k < |events| {
      var n := |events| - 1;
      PrefixVerifies(rules, runId, events[..n], k);
      assert events[..n][..k] == events[..k];
    } else {
      assert events[..k] == events;
    }
  }

  class RunJournal {
    const rules: Rules
    const runId: string
    var events: seq<Event>

    constructor (rules: Rules, runId: string)
      ensures this.rules == rules && this.runId == runId && events == []
    {
      this.rules, this.runId, events := rules, runId, [];
    }

    /** Appends exactly one fitting event, or nothing. */
    method Append(i: Input) returns (r: Option<Event>)
      modifies this
      ensures r.Some? <==> Admits(rules, old(events), i)
      ensures events == old(events) + if r.Some? then [Proposed(rules, runId, old(events), i)] else []
      ensures r.Some? ==> r.value == events[|events| - 1]
      ensures Verified(rules, runId, events) <==> Verified(rules, runId, old(events))
    {
      hide Verified;
      var previous, previousStatus, offset := ZERO_DIGEST, None, -1;
      if |events| > 0 {
        var last := events[|events| - 1];
        previous, previousStatus, offset := last.digest, Some(last.body.status), last.body.offset;
      }
      if !Follows(previousStatus, i.status) { return None; }
      if rules.blank(i.eventType) || i.occurredAt == 0 || i.offset < 0 || i.offset < offset { return None; }
      if !rules.digestOk(i.payloadDigest) { return None; }
      var body := Body(SCHEMA, runId, |events| + 1, previous, i.eventType, i.status, i.occurredAt, i.offset, i.payloadDigest);
      var event := Event(body, rules.digest(body));
      AppendVerifies(rules, runId, events, event);
      events := events + [event];
      r := Some(event);
    }

    method Verify() returns (ok: bool)
      ensures ok <==> Verified(rules, runId, events)
    {
      var previous, previousStatus, offset := ZERO_DIGEST, None, -1;
      for index := 0 to |events|
        invariant Verified(rules, runId, events[..index])
        invariant Link(previous, previousStatus, offset) == LinkAfter(events[..index])
      {
        var e := events[index];
        assert events[..index + 1] == events[..index] + [e];
        AppendVerifies(rules, runId, events[..index], e);
        if !Fits(rules, runId, index + 1, Link(previous, previousStatus, offset), e) {
          if Verified(rules, runId, events) { PrefixVerifies(rules, runId, events, index + 1); }
          return false;
        }
        previous, previousStatus, offset := e.digest, Some(e.body.status), e.body.offset;
      }
      assert events[..|events|] == events;
      ok := true;
    }

    method EncodeJSONL() returns (r: Option<Bytes>)
      ensures r == if Verified(rules, runId, events) then Some(Text(rules, events)) else None
    {
      var ok := Verify();
      if !ok { return None; }
      var output: Bytes := [];
      for i := 0 to |events|
        invariant output == Text(rules, events[..i])
      {
        assert events[..i + 1][..i] == events[..i];
        output := output + rules.encode(events[i]) + [Lines.LF];
      }
      assert events[..|events|] == events;
      r := Some(output);
    }
  }

  method NewJournal(rules: Rules, runId: string) returns (journal: RunJournal?)
    ensures journal != null <==> rules.idOk(runId)
    ensures journal != null ==> fresh(journal) && journal.rules == rules && journal.runId == runId && journal.events == []
  {
    if !rules.idOk(runId) { return null; }
    journal := new RunJournal(rules, runId);
  }

  // ----- lifecycles

  function Statuses(events: seq<Event>): (s: seq<RunStatus>)
    ensures |s| == |events|
  {
    seq(|events|, i requires 0 <= i < |events| => events[i].body.status)
  }

  /** A prefix of: planned, one or more running, one terminal status. */
  ghost predicate Lifecycle(s: seq<RunStatus>)
  {
    && (|s| > 0 ==> s[0] == Planned)
    && (forall i :: 1 <= i < |s| - 1 ==> s[i] == Running)
    && (|s| > 1 ==> s[|s| - 1] == Running || (|s| > 2 && Terminal(s[|s| - 1])))
  }

  lemma StatusesSnoc(events: seq<Event>, e: Event)
    ensures Statuses(events + [e]) == Statuses(events) + [e.body.status]
  {
  }

  lemma LifecycleSnoc(s: seq<RunStatus>, next: RunStatus)
    ensures Lifecycle(s + [next]) <==> Lifecycle(s) && Follows(if s == [] then None else Some(s[|s| - 1]), next)
  {
    var longer := s + [next];
    assert forall i :: 0 <= i < |s| ==> longer[i] == s[i];
    assert longer[|s|] == next;
    if Lifecycle(longer) && |s| > 1 { assert longer[|s| - 1] == Running; }
  }

  lemma {:induction false} VerifiedIsLifecycle(rules: Rules, runId: string, events: seq<Event>)
    requires Verified(rules, runId, events)
    ensures Lifecycle(Statuses(events))
  {
    hide Lifecycle, FieldsOk;
    if events == [] {
      EmptyLifecycle();
    } else {
      var n := |events| - 1;
      VerifiedIsLifecycle(rules, runId, events[..n]);
      assert events == events[..n] + [events[n]];
      StatusesSnoc(events[..n], events[n]);
      LifecycleSnoc(Statuses(events[..n]), events[n].body.status);
    }
  }

  lemma EmptyLifecycle()
    ensures Lifecycle([])
  {
  }

  /** Every lifecycle is the status sequence of a journal made by appending. */
  lemma {:induction false} LifecycleIsVerified(rules: Rules, runId: string, eventType: string, payload: string, s: seq<RunStatus>)
    returns (events: seq<Event>)
    requires !rules.blank(eventType) && rules.digestOk(payload) && Lifecycle(s)
    ensures Verified(rules, runId, events) && Statuses(events) == s
    ensures forall e :: e in events ==> e.body.offset == 0
  {
    hide Lifecycle;
    events := [];
    if s != [] {
      var n := |s| - 1;
      assert s == s[..n] + [s[n]];
      LifecycleSnoc(s[..n], s[n]);
      var before := LifecycleIsVerified(rules, runId, eventType, payload, s[..n]);
      var e := Proposed(rules, runId, before, Input(eventType, s[n], 1, 0, payload));
      events := before + [e];
      assert before != [] ==> before[n - 1] in before && Statuses(before)[n - 1] == s[n - 1];
      AppendVerifies(rules, runId, before, e);
      StatusesSnoc(before, e);
    }
  }

  /** The status sequences of verified journals are exactly the lifecycles. */
  lemma StatusesAreLifecycles(rules: Rules, runId: string, eventType: string, payload: string, s: seq<RunStatus>)
    requires !rules.blank(eventType) && rules.digestOk(payload)
    ensures (exists events :: Verified(rules, runId, events) && Statuses(events) == s) <==> Lifecycle(s)
  {
    hide Lifecycle, Verified;
    if Lifecycle(s) {
      var events := LifecycleIsVerified(rules, runId, eventType, payload, s);
    }
    if events: seq<Event> :| Verified(rules, runId, events) && Statuses(events) == s {
      VerifiedIsLifecycle(rules, runId, events);
    }
  }

  // ----- what a verified journal is

  /** Event i belongs to this run at this place: numbered, chained to the event before, no earlier than it,
      with proper fields and its own digest. */
  predicate ChainedAt(rules: Rules, runId: string, events: seq<Event>, i: nat)
    requires i < |events|
  {
    var e := events[i];
    && e.body.schema == "urn:agentapi-doctor:run-journal-event:v1alpha1" && e.body.runId == runId && e.body.sequence == i + 1
    && e.body.previous == (if i == 0 then ZERO_DIGEST else events[i - 1].digest) && e.digest == rules.digest(e.body)
    && (if i == 0 then 0 else events[i - 1].body.offset) <= e.body.offset
    && e.body.occurredAt != 0 && !rules.blank(e.body.eventType) && rules.digestOk(e.body.payloadDigest)
  }

  ghost predicate Chained(rules: Rules, runId: string, events: seq<Event>)
  {
    forall i :: 0 <= i < |events| ==> ChainedAt(rules, runId, events, i)
  }

  lemma ChainedSnoc(rules: Rules, runId: string, events: seq<Event>, e: Event)
    ensures Chained(rules, runId, events + [e]) <==> Chained(rules, runId, events) && ChainedAt(rules, runId, events + [e], |events|)
  {
    var longer := events + [e];
    forall i | 0 <= i < |events| ensures ChainedAt(rules, runId, longer, i) == ChainedAt(rules, runId, events, i) {
      assert longer[i] == events[i] && (i > 0 ==> longer[i - 1] == events[i - 1]);
    }
    if Chained(rules, runId, longer) {
      forall i | 0 <= i < |events| ensures ChainedAt(rules, runId, events, i) { assert ChainedAt(rules, runId, longer, i); }
    }
  }

  lemma {:induction false} OffsetsAreNatural(rules: Rules, runId: string, events: seq<Event>, i: nat)
    requires Chained(rules, runId, events) && i < |events|
    ensures events[i].body.offset >= 0
  {
    assert ChainedAt(rules, runId, events, i);
    if i > 0 { OffsetsAreNatural(rules, runId, events, i - 1); }
  }

  /** A journal verifies exactly when its events are chained and their statuses are a lifecycle. */
  lemma {:induction false} VerifiedIff(rules: Rules, runId: string, events: seq<Event>)
    ensures Verified(rules, runId, events) <==> Chained(rules, runId, events) && Lifecycle(Statuses(events))
  {
    hide Lifecycle, Statuses, Follows;
    if events == [] {
      EmptyLifecycle();
      assert Statuses([]) == [] by { NoStatuses(); }
    } else {
      var n := |events| - 1;
      var front, e := events[..n], events[n];
      assert events == front + [e];
      VerifiedIff(rules, runId, front);
      AppendVerifies(rules, runId, front, e);
      ChainedSnoc(rules, runId, front, e);
      StatusesSnoc(front, e);
      LifecycleSnoc(Statuses(front), e.body.status);
      LastStatus(front);
      if Verified(rules, runId, front) {
        FitsIff(rules, runId, front, e);
      }
    }
  }

  lemma NoStatuses()
    ensures Statuses([]) == []
  {
  }

  lemma LastStatus(events: seq<Event>)
    ensures LinkAfter(events).status == if Statuses(events) == [] then None else Some(Statuses(events)[|events| - 1])
  {
  }

  lemma FitsIff(rules: Rules, runId: string, events: seq<Event>, e: Event)
    requires Chained(rules, runId, events)
    ensures Fits(rules, runId, |events| + 1, LinkAfter(events), e) <==>
            ChainedAt(rules, runId, events + [e], |events|) && Follows(LinkAfter(events).status, e.body.status)
  {
    hide Follows, Chained;
    var longer := events + [e];
    if events != [] {
      OffsetsAreNatural(rules, runId, events, |events| - 1);
      assert longer[|events| - 1] == events[|events| - 1];
    }
  }

  /** An input is admitted exactly when the journal with its event is verified too. */
  lemma AdmitsIff(rules: Rules, runId: string, events: seq<Event>, i: Input)
    requires Verified(rules, runId, events)
    ensures Admits(rules, events, i) <==> Verified(rules, runId, events + [Proposed(rules, runId, events, i)])
    ensures var b := Proposed(rules, runId, events, i).body;
            Input(b.eventType, b.status, b.occurredAt, b.offset, b.payloadDigest) == i
  {
    hide Verified, Follows;
    AppendVerifies(rules, runId, events, Proposed(rules, runId, events, i));
  }

  // ----- the chain

  ghost predicate CollisionFree(rules: Rules)
  {
    forall a, b :: rules.digest(a) == rules.digest(b) ==> a == b
  }

  /** The last digest fixes the whole journal. */
  lemma {:induction false} LastDigestFixesJournal(rules: Rules, idA: string, a: seq<Event>, idB: string, b: seq<Event>)
    requires CollisionFree(rules) && Verified(rules, idA, a) && Verified(rules, idB, b)
    requires a != [] && b != [] && a[|a| - 1].digest == b[|b| - 1].digest
    ensures a == b && idA == idB
    decreases |a|
  {
    hide Follows, FieldsOk;
    var n := |a| - 1;
    assert a[n].body == b[|b| - 1].body;
    assert |b| == n + 1;
    if n > 0 {
      assert a[..n][n - 1].digest == b[..n][n - 1].digest;
      LastDigestFixesJournal(rules, idA, a[..n], idB, b[..n]);
    }
    assert a == a[..n] + [a[n]] && b == b[..n] + [b[n]];
  }

  // ----- JSON Lines

  function Text(rules: Rules, events: seq<Event>): Bytes
  {
    if events == [] then []
    else
      var n := |events| - 1;
      Text(rules, events[..n]) + rules.encode(events[n]) + [Lines.LF]
  }

  function Chomp(group: Bytes): Bytes { if group == [] then [] else group[..|group| - 1] }

  /** The scanner's raw lines: every terminated one, and an unterminated last one unless empty. */
  function RawLines(data: Bytes): seq<Bytes>
  {
    var cut := Lines.Cut(data, Lines.IsLF);
    seq(|cut.groups|, i requires 0 <= i < |cut.groups| => Chomp(cut.groups[i])) + if cut.rest == [] then [] else [cut.rest]
  }

  /** A line and its terminator must fit the scanner's buffer. */
  predicate Fitting(lines: seq<Bytes>) { forall i :: 0 <= i < |lines| ==> |lines[i]| < MAX_EVENT_BYTES }

  datatype Decoded = Decoded(runId: string, events: seq<Event>)

  /** Every line decodes, in order. */
  function Parsed(rules: Rules, lines: seq<Bytes>): Option<seq<Event>>
  {
    if lines == [] then Some([])
    else
      var n := |lines| - 1;
      var before := Parsed(rules, lines[..n]);
      var e := rules.wire(Lines.StripCR(lines[n]));
      if before.Some? && e.Some? then Some(before.value + [e.value]) else None
  }

  /** What decoding accepts: fitting lines that parse to a nonempty verified journal of a valid run. */
  ghost predicate Decodes(rules: Rules, data: Bytes, d: Decoded)
  {
    && Fitting(RawLines(data)) && Parsed(rules, RawLines(data)) == Some(d.events) && d.events != []
    && rules.idOk(d.runId) && Verified(rules, d.runId, d.events)
  }

  lemma {:induction false} PrefixParses(rules: Rules, lines: seq<Bytes>, i: nat)
    requires Parsed(rules, lines).Some? && i <= |lines|
    ensures Parsed(rules, lines[..i]).Some? && |Parsed(rules, lines).value| == |lines|
    ensures |Parsed(rules, lines[..i]).value| == i && Parsed(rules, lines[..i]).value == Parsed(rules, lines).value[..i]
    decreases |lines|
  {
    if i < |lines| {
      var n := |lines| - 1;
      PrefixParses(rules, lines[..n], i);
      assert lines[..n][..i] == lines[..i];
    } else {
      if lines != [] { PrefixParses(rules, lines[..|lines| - 1], |lines| - 1); }
      assert lines[..i] == lines;
    }
  }

  method DecodeJournal(rules: Rules, data: Bytes) returns (r: Option<Decoded>)
    ensures r.Some? ==> Decodes(rules, data, r.value)
    ensures r.None? ==> forall d :: !Decodes(rules, data, d)
  {
    hide Verified, RawLines;
    var lines := RawLines(data);
    var events: seq<Event> := [];
    for line := 0 to |lines|
      invariant Parsed(rules, lines[..line]) == Some(events) && |events| == line
      invariant Fitting(lines[..line])
      invariant line > 0 ==> rules.idOk(events[0].body.runId)
    {
      if |lines[line]| >= MAX_EVENT_BYTES { return None; }
      assert lines[..line + 1][..line] == lines[..line];
      var e := rules.wire(Lines.StripCR(lines[line]));
      if e.None? {
        if Parsed(rules, lines).Some? { PrefixParses(rules, lines, line + 1); }
        return None;
      }
      if line == 0 && !rules.idOk(e.value.body.runId) {
        forall d ensures !Decodes(rules, data, d) {
          if Decodes(rules, data, d) { FirstDecodes(rules, data, e.value, d); }
        }
        return None;
      }
      events := events + [e.value];
    }
    assert lines[..|lines|] == lines;
    if events == [] { return None; }
    var runId := events[0].body.runId;
    var journal := new RunJournal(rules, runId);
    journal.events := events;
    var ok := journal.Verify();
    if !ok {
      forall d ensures !Decodes(rules, data, d) {
        if Decodes(rules, data, d) { FirstRun(rules, d.runId, d.events); }
      }
      return None;
    }
    r := Some(Decoded(runId, events));
  }

  lemma FirstRun(rules: Rules, runId: string, events: seq<Event>)
    requires Verified(rules, runId, events) && events != []
    ensures events[0].body.runId == runId
  {
    PrefixVerifies(rules, runId, events, 1);
    assert events[..1][0] == events[0];
  }

  lemma OneParses(rules: Rules, line: Bytes)
    requires rules.wire(Lines.StripCR(line)).Some?
    ensures Parsed(rules, [line]) == Some([rules.wire(Lines.StripCR(line)).value])
  {
    var none: seq<Bytes>, e := [], rules.wire(Lines.StripCR(line)).value;
    assert [line][..0] == none && [] + [e] == [e];
  }

  /** The first line names the run. */
  lemma FirstDecodes(rules: Rules, data: Bytes, first: Event, d: Decoded)
    requires RawLines(data) != [] && rules.wire(Lines.StripCR(RawLines(data)[0])) == Some(first)
    requires Decodes(rules, data, d)
    ensures first.body.runId == d.runId && rules.idOk(first.body.runId)
  {
    hide RawLines, Verified;
    var lines := RawLines(data);
    PrefixParses(rules, lines, 1);
    assert lines[..1] == [lines[0]];
    OneParses(rules, lines[0]);
    FirstRun(rules, d.runId, d.events);
    assert d.events[..1][0] == first;
  }

  /** The JSON encoding of an event is one nonempty line that decodes back. */
  ghost predicate OneLine(rules: Rules, e: Event)
  {
    var text := rules.encode(e);
    && text != [] && text[|text| - 1] != Lines.CR && (forall i :: 0 <= i < |text| ==> text[i] != Lines.LF)
    && rules.wire(text) == Some(e)
  }

  function EncodedLines(rules: Rules, events: seq<Event>): (lines: seq<Bytes>)
    ensures |lines| == |events|
  {
    seq(|events|, i requires 0 <= i < |events| => rules.encode(events[i]))
  }

  function Groups(rules: Rules, events: seq<Event>): (groups: seq<Bytes>)
    ensures |groups| == |events|
  {
    seq(|events|, i requires 0 <= i < |events| => rules.encode(events[i]) + [Lines.LF])
  }

  /** One more line, after terminated ones. */
  lemma LineCuts(done: Bytes, groups: seq<Bytes>, text: Bytes)
    requires Lines.Cut(done, Lines.IsLF) == Lines.Pieces(groups, []) && forall i :: 0 <= i < |text| ==> text[i] != Lines.LF
    ensures Lines.Cut(done + text + [Lines.LF], Lines.IsLF) == Lines.Pieces(groups + [text + [Lines.LF]], [])
  {
    Lines.CutPlain(done, text, Lines.IsLF);
    assert [] + text == text;
    Lines.CutSnoc(done + text, Lines.LF, Lines.IsLF);
  }

  lemma {:induction false} TextCuts(rules: Rules, events: seq<Event>)
    requires forall e :: e in events ==> OneLine(rules, e)
    ensures Lines.Cut(Text(rules, events), Lines.IsLF) == Lines.Pieces(Groups(rules, events), [])
  {
    if events == [] {
      assert Groups(rules, events) == [];
    } else {
      var n := |events| - 1;
      assert forall e :: e in events[..n] ==> e in events;
      TextCuts(rules, events[..n]);
      var text := rules.encode(events[n]);
      assert OneLine(rules, events[n]);
      LineCuts(Text(rules, events[..n]), Groups(rules, events[..n]), text);
      assert Groups(rules, events) == Groups(rules, events[..n]) + [text + [Lines.LF]];
    }
  }

  lemma TextLines(rules: Rules, events: seq<Event>)
    requires forall e :: e in events ==> OneLine(rules, e)
    ensures RawLines(Text(rules, events)) == EncodedLines(rules, events)
  {
    TextCuts(rules, events);
    var groups, lines := Groups(rules, events), EncodedLines(rules, events);
    forall i | 0 <= i < |groups| ensures Chomp(groups[i]) == lines[i] {
      assert groups[i][..|groups[i]| - 1] == rules.encode(events[i]);
    }
  }

  lemma {:induction false} LinesParse(rules: Rules, events: seq<Event>)
    requires forall e :: e in events ==> OneLine(rules, e)
    ensures Parsed(rules, EncodedLines(rules, events)) == Some(events)
  {
    if events != [] {
      var n := |events| - 1;
      assert forall e :: e in events[..n] ==> e in events;
      LinesParse(rules, events[..n]);
      assert EncodedLines(rules, events)[..n] == EncodedLines(rules, events[..n]);
      assert OneLine(rules, events[n]);
      assert events == events[..n] + [events[n]];
    }
  }

  /**
   A verified journal survives encoding and decoding exactly when it has an event
   and every encoded event is shorter than the scanner's limit.
   */
  lemma RoundTrips(rules: Rules, runId: string, events: seq<Event>)
    requires rules.idOk(runId) && Verified(rules, runId, events) && forall e :: e in events ==> OneLine(rules, e)
    ensures Decodes(rules, Text(rules, events), Decoded(runId, events)) <==>
            events != [] && forall i :: 0 <= i < |events| ==> |rules.encode(events[i])| < MAX_EVENT_BYTES
    ensures forall d :: Decodes(rules, Text(rules, events), d) ==> d == Decoded(runId, events)
  {
    hide Verified, RawLines, OneLine;
    TextLines(rules, events);
    LinesParse(rules, events);
    var lines := EncodedLines(rules, events);
    assert forall i :: 0 <= i < |events| ==> lines[i] == rules.encode(events[i]);
    forall d | Decodes(rules, Text(rules, events), d) ensures d == Decoded(runId, events) {
      FirstRun(rules, runId, events);
      FirstRun(rules, d.runId, d.events);
    }
  }
}
