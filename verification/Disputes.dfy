/**
 Disputes (internal/registry/dispute.go): a journaled lifecycle with an
 independent reviewer, its snapshots and their restoration.  Times are numbers
 with zero meaning unset.
 */
module Disputes {
  import opened Common
  import opened RegistryAuth

  datatype Status = Opened | UnderReview | Resolved | Superseded

  datatype Kind = OpenedEvent | OwnerResponse | ReviewStarted | ResolvedEvent | SupersededEvent

  datatype Event = Event(sequence: nat, kind: Kind, actor: string, at: int, statement: string, replacement: string)

  /** A dispute and its snapshot hold the same fields; an empty reviewer is none. */
  datatype State = State(
    id: string, observation: string, subject: string, creator: string, owner: string,
    reviewer: string, status: Status, events: seq<Event>)

  /** What an ownership record answers at the time of a call. */
  datatype Ownership = Ownership(subject: string, owner: string, current: bool)

  datatype Command =
    | Respond(actor: Principal, ownership: Ownership, statement: string, now: int)
    | Review(actor: Principal, now: int)
    | Settle(actor: Principal, resolution: string, now: int)
    | Replace(actor: Principal, replacement: string, reason: string, now: int)

  function Log(s: State, kind: Kind, actor: string, statement: string, replacement: string, now: int): State
  {
    s.(events := s.events + [Event(|s.events| + 1, kind, actor, now, statement, replacement)])
  }

  function Open(x: Syntax, p: Principal, id: string, observation: string, subject: string, owner: string, statement: string, now: int): Option<State>
  {
    if Holds(x, p, DisputeCreate) && x.idOk(id) && x.digestOk(observation) && x.subjectOk(subject) && x.principalOk(owner)
       && x.reasonOk(statement) && now != 0
    then Some(Log(State(id, observation, subject, p.id, owner, "", Opened, []), OpenedEvent, p.id, statement, "", now))
    else None
  }

  /** The command is accepted. */
  predicate Allows(x: Syntax, s: State, c: Command)
  {
    match c
    case Respond(p, ownership, statement, now) =>
      && now != 0 && Holds(x, p, DisputeCreate) && Owns(x, p, ownership.owner, OwnershipManage) && ownership.current
      && ownership.subject == s.subject && ownership.owner == s.owner && x.reasonOk(statement)
      && (s.status == Opened || s.status == UnderReview)
    case Review(p, now) =>
      && Holds(x, p, ModerationReview) && p.id != s.creator && p.id != s.owner
      && ((s.status == UnderReview && s.reviewer == p.id) || (s.status == Opened && now != 0))
    case Settle(p, resolution, now) =>
      Holds(x, p, ModerationReview) && p.id == s.reviewer && x.reasonOk(resolution) && now != 0 && s.status == UnderReview
    case Replace(p, replacement, reason, now) =>
      && Holds(x, p, ModerationReview) && p.id == s.reviewer && x.digestOk(replacement) && replacement != s.observation
      && x.reasonOk(reason) && now != 0 && s.status == UnderReview
  }

  /** The state after a command; a refused one changes nothing. */
  function Step(x: Syntax, s: State, c: Command): State
  {
    if !Allows(x, s, c) then s
    else
      match c
      case Respond(p, _, statement, now) => Log(s, OwnerResponse, p.id, statement, "", now)
      case Review(p, now) =>
        if s.status == UnderReview then s
        else Log(s.(reviewer := p.id, status := UnderReview), ReviewStarted, p.id, "review_started", "", now)
      case Settle(p, resolution, now) => Log(s.(status := Resolved), ResolvedEvent, p.id, resolution, "", now)
      case Replace(p, replacement, reason, now) => Log(s.(status := Superseded), SupersededEvent, p.id, reason, replacement, now)
  }

  function Run(x: Syntax, s: State, commands: seq<Command>): State
  {
    if commands == [] then s else Step(x, Run(x, s, commands[..|commands| - 1]), commands[|commands| - 1])
  }

  // ----- the object

  class Dispute {
    const syntax: Syntax
    const id: string
    const observation: string
    const subject: string
    const creator: string
    const owner: string
    var reviewer: string
    var status: Status
    var events: seq<Event>

    function Snapshot(): State
      reads this
    {
      State(id, observation, subject, creator, owner, reviewer, status, events)
    }

    constructor (syntax: Syntax, s: State)
      ensures this.syntax == syntax && Snapshot() == s
    {
      this.syntax := syntax;
      id, observation, subject, creator, owner := s.id, s.observation, s.subject, s.creator, s.owner;
      reviewer, status, events := s.reviewer, s.status, s.events;
    }

    method AppendEvent(kind: Kind, actor: string, statement: string, replacement: string, now: int)
      modifies this`events
      ensures Snapshot() == Log(old(Snapshot()), kind, actor, statement, replacement, now)
    {
      events := events + [Event(|events| + 1, kind, actor, now, statement, replacement)];
    }

    method AddOwnerResponse(p: Principal, ownership: Ownership, statement: string, now: int) returns (ok: bool)
      modifies this
      ensures var c := Respond(p, ownership, statement, now);
              ok == Allows(syntax, old(Snapshot()), c) && Snapshot() == Step(syntax, old(Snapshot()), c)
    {
      if now == 0 || !Holds(syntax, p, DisputeCreate) { return false; }
      if !Owns(syntax, p, ownership.owner, OwnershipManage) || !ownership.current { return false; }
      if ownership.subject != subject || ownership.owner != owner { return false; }
      if !syntax.reasonOk(statement) { return false; }
      if status != Opened && status != UnderReview { return false; }
      AppendEvent(OwnerResponse, p.id, statement, "", now);
      ok := true;
    }

    method BeginReview(p: Principal, now: int) returns (ok: bool)
      modifies this
      ensures ok == Allows(syntax, old(Snapshot()), Review(p, now))
      ensures Snapshot() == Step(syntax, old(Snapshot()), Review(p, now))
    {
      if !Holds(syntax, p, ModerationReview) { return false; }
      if p.id == creator || p.id == owner { return false; }
      if status == UnderReview && reviewer == p.id { return true; }
      if status != Opened || now == 0 { return false; }
      reviewer := p.id;
      status := UnderReview;
      AppendEvent(ReviewStarted, p.id, "review_started", "", now);
      ok := true;
    }

    method Resolve(p: Principal, resolution: string, now: int) returns (ok: bool)
      modifies this
      ensures ok == Allows(syntax, old(Snapshot()), Settle(p, resolution, now))
      ensures Snapshot() == Step(syntax, old(Snapshot()), Settle(p, resolution, now))
    {
      if !Holds(syntax, p, ModerationReview) || p.id != reviewer { return false; }
      if !syntax.reasonOk(resolution) || now == 0 || status != UnderReview { return false; }
      status := Resolved;
      AppendEvent(ResolvedEvent, p.id, resolution, "", now);
      ok := true;
    }

    method Supersede(p: Principal, replacement: string, reason: string, now: int) returns (ok: bool)
      modifies this
      ensures ok == Allows(syntax, old(Snapshot()), Replace(p, replacement, reason, now))
      ensures Snapshot() == Step(syntax, old(Snapshot()), Replace(p, replacement, reason, now))
    {
      if !Holds(syntax, p, ModerationReview) || p.id != reviewer { return false; }
      if !syntax.digestOk(replacement) || replacement == observation { return false; }
      if !syntax.reasonOk(reason) || now == 0 || status != UnderReview { return false; }
      status := Superseded;
      AppendEvent(SupersededEvent, p.id, reason, replacement, now);
      ok := true;
    }
  }

  method NewDispute(x: Syntax, p: Principal, id: string, observation: string, subject: string, owner: string, statement: string, now: int)
    returns (dispute: Dispute?)
    ensures var start := Open(x, p, id, observation, subject, owner, statement, now);
            && (dispute != null <==> start.Some?)
            && (dispute != null ==> fresh(dispute) && dispute.syntax == x && dispute.Snapshot() == start.value)
  {
    if !Holds(x, p, DisputeCreate) || !x.idOk(id) || !x.digestOk(observation) || !x.subjectOk(subject) { return null; }
    if !x.principalOk(owner) || !x.reasonOk(statement) || now == 0 { return null; }
    dispute := new Dispute(x, State(id, observation, subject, p.id, owner, "", Opened, []));
    dispute.AppendEvent(OpenedEvent, p.id, statement, "", now);
  }

  // ----- the journal decides everything

  /** What a journal has established so far. */
  datatype Progress = Progress(status: Option<Status>, reviewer: string)

  /** The next event is lawful after what came before, and what it establishes. */
  function Advance(creator: string, owner: string, g: Progress, e: Event): Option<Progress>
  {
    match e.kind
    case OpenedEvent => if g.status == None && e.actor == creator then Some(Progress(Some(Opened), "")) else None
    case OwnerResponse =>
      if (g.status == Some(Opened) || g.status == Some(UnderReview)) && e.actor == owner then Some(g) else None
    case ReviewStarted =>
      if g.status == Some(Opened) && e.actor != creator && e.actor != owner then Some(Progress(Some(UnderReview), e.actor)) else None
    case ResolvedEvent =>
      if g.status == Some(UnderReview) && e.actor == g.reviewer then Some(Progress(Some(Resolved), g.reviewer)) else None
    case SupersededEvent =>
      if g.status == Some(UnderReview) && e.actor == g.reviewer then Some(Progress(Some(Superseded), g.reviewer)) else None
  }

  function Replay(creator: string, owner: string, events: seq<Event>): Option<Progress>
  {
    if events == [] then Some(Progress(None, ""))
    else
      var before := Replay(creator, owner, events[..|events| - 1]);
      if before.None? then None else Advance(creator, owner, before.value, events[|events| - 1])
  }

  /** The fields of event i. */
  predicate EventOk(x: Syntax, observation: string, e: Event, i: nat)
  {
    && e.sequence == i + 1 && e.at != 0 && x.principalOk(e.actor) && x.reasonOk(e.statement)
    && (e.kind == ReviewStarted ==> e.statement == "review_started")
    && (if e.kind == SupersededEvent then x.digestOk(e.replacement) && e.replacement != observation else e.replacement == "")
  }

  ghost predicate HeaderOk(x: Syntax, s: State)
  {
    x.idOk(s.id) && x.digestOk(s.observation) && x.subjectOk(s.subject) && x.principalOk(s.creator) && x.principalOk(s.owner)
  }

  /** Status and reviewer are what a lawful journal establishes. */
  ghost predicate Good(x: Syntax, s: State)
  {
    && HeaderOk(x, s) && s.events != []
    && Replay(s.creator, s.owner, s.events) == Some(Progress(Some(s.status), s.reviewer))
    && forall i :: 0 <= i < |s.events| ==> EventOk(x, s.observation, s.events[i], i)
  }

  lemma ReplaySnoc(creator: string, owner: string, events: seq<Event>, e: Event)
    ensures Replay(creator, owner, events + [e]) ==
            var before := Replay(creator, owner, events); if before.None? then None else Advance(creator, owner, before.value, e)
  {
    assert (events + [e])[..|events|] == events;
  }

  /** A reviewer, once there is one, is neither creator nor owner. */
  lemma {:induction false} ReviewerIsIndependent(creator: string, owner: string, events: seq<Event>)
    requires Replay(creator, owner, events).Some?
    ensures var g := Replay(creator, owner, events).value;
            && (g.status == Some(Opened) || g.status == None ==> g.reviewer == "")
            && (g.status != Some(Opened) && g.status != None ==> g.reviewer != creator && g.reviewer != owner)
  {
    if events != [] { ReviewerIsIndependent(creator, owner, events[..|events| - 1]); }
  }

  lemma OpenIsGood(x: Syntax, p: Principal, id: string, observation: string, subject: string, owner: string, statement: string, now: int)
    ensures var s := Open(x, p, id, observation, subject, owner, statement, now); s.Some? ==> Good(x, s.value)
  {
    var s := Open(x, p, id, observation, subject, owner, statement, now);
    if s.Some? { ReplaySnoc(p.id, owner, [], s.value.events[0]); }
  }

  /** Logging a lawful event with proper fields. */
  lemma LogIsGood(x: Syntax, s: State, next: State, e: Event)
    requires Good(x, s) && EventOk(x, s.observation, e, |s.events|)
    requires next == s.(reviewer := next.reviewer, status := next.status, events := s.events + [e])
    requires Advance(s.creator, s.owner, Progress(Some(s.status), s.reviewer), e) == Some(Progress(Some(next.status), next.reviewer))
    ensures Good(x, next)
  {
    hide Advance, EventOk;
    ReplaySnoc(s.creator, s.owner, s.events, e);
    forall i | 0 <= i < |next.events| ensures EventOk(x, s.observation, next.events[i], i) {
      if i < |s.events| { assert next.events[i] == s.events[i]; }
    }
  }

  /** Every command keeps the journal lawful, appends at most one event, and never rewrites one. */
  lemma StepKeeps(x: Syntax, s: State, c: Command)
    requires Sensible(x) && Good(x, s)
    ensures Good(x, Step(x, s, c))
    ensures s.events <= Step(x, s, c).events && |Step(x, s, c).events| <= |s.events| + 1
  {
    hide Good, Replay;
    var next := Step(x, s, c);
    if next.events != s.events { LogIsGood(x, s, next, next.events[|s.events|]); }
  }

  lemma {:induction false} RunKeeps(x: Syntax, s: State, commands: seq<Command>)
    requires Sensible(x) && Good(x, s)
    ensures Good(x, Run(x, s, commands)) && s.events <= Run(x, s, commands).events
  {
    hide Good, Step, Sensible;
    if commands != [] {
      var n := |commands| - 1;
      RunKeeps(x, s, commands[..n]);
      StepKeeps(x, Run(x, s, commands[..n]), commands[n]);
    }
  }

  /** A settled dispute never changes again. */
  lemma {:induction false} SettledIsFinal(x: Syntax, s: State, commands: seq<Command>)
    requires s.status == Resolved || s.status == Superseded
    ensures Run(x, s, commands) == s
  {
    if commands != [] { SettledIsFinal(x, s, commands[..|commands| - 1]); }
  }

  // ----- exactly the lawful states are reachable

  /** Some opening and some commands lead here. */
  ghost predicate Reachable(x: Syntax, s: State)
  {
    exists start, commands :: Opening(x, start) && Run(x, start, commands) == s
  }

  ghost predicate Opening(x: Syntax, s: State)
  {
    exists p, statement, now :: Open(x, p, s.id, s.observation, s.subject, s.owner, statement, now) == Some(s)
  }

  function Everyone(id: string): Principal
  {
    Principal(id, {DisputeCreate, ModerationReview, OwnershipManage})
  }

  /** A command that writes this event. */
  function CommandFor(s: State, e: Event): Command
  {
    match e.kind
    case OwnerResponse => Respond(Everyone(e.actor), Ownership(s.subject, s.owner, true), e.statement, e.at)
    case ReviewStarted => Review(Everyone(e.actor), e.at)
    case SupersededEvent => Replace(Everyone(e.actor), e.replacement, e.statement, e.at)
    case _ => Settle(Everyone(e.actor), e.statement, e.at)
  }

  lemma CommandWrites(x: Syntax, s: State, before: State, e: Event)
    requires EventOk(x, s.observation, e, |before.events|) && e.kind != OpenedEvent
    requires before == s.(reviewer := before.reviewer, status := before.status, events := before.events) && s.events == before.events + [e]
    requires Advance(s.creator, s.owner, Progress(Some(before.status), before.reviewer), e) == Some(Progress(Some(s.status), s.reviewer))
    ensures Step(x, before, CommandFor(s, e)) == s
  {
  }

  lemma RunSnoc(x: Syntax, s: State, commands: seq<Command>, c: Command)
    ensures Run(x, s, commands + [c]) == Step(x, Run(x, s, commands), c)
  {
    assert (commands + [c])[..|commands|] == commands;
  }

  lemma FirstIsOpening(x: Syntax, s: State)
    requires Good(x, s) && |s.events| == 1
    ensures Opening(x, s)
  {
    var e := s.events[0];
    assert s.events == [] + [e];
    ReplaySnoc(s.creator, s.owner, [], e);
    assert EventOk(x, s.observation, e, 0);
    assert Open(x, Everyone(e.actor), s.id, s.observation, s.subject, s.owner, e.statement, e.at) == Some(s);
  }

  /** What an established journal says after its first event. */
  lemma {:induction false} StartedHasStatus(creator: string, owner: string, events: seq<Event>)
    requires Replay(creator, owner, events).Some? && events != []
    ensures Replay(creator, owner, events).value.status.Some?
  {
    if |events| > 1 { StartedHasStatus(creator, owner, events[..|events| - 1]); }
  }

  lemma {:induction false} GoodIsReachable(x: Syntax, s: State)
    requires Good(x, s)
    ensures Reachable(x, s)
    decreases |s.events|
  {
    hide Advance, EventOk, HeaderOk, Opening, Step, CommandFor;
    if |s.events| == 1 {
      FirstIsOpening(x, s);
      assert Run(x, s, []) == s;
    } else {
      var before := EarlierState(x, s);
      GoodIsReachable(x, before);
      var start, commands :| Opening(x, start) && Run(x, start, commands) == before;
      RunSnoc(x, start, commands, CommandFor(s, s.events[|s.events| - 1]));
    }
  }

  /** The state one event earlier. */
  lemma EarlierState(x: Syntax, s: State) returns (before: State)
    requires Good(x, s) && |s.events| > 1
    ensures Good(x, before) && |before.events| < |s.events|
    ensures Step(x, before, CommandFor(s, s.events[|s.events| - 1])) == s
  {
    hide Advance, EventOk, HeaderOk, Step, CommandFor;
    var n := |s.events| - 1;
    var e := s.events[n];
    assert s.events == s.events[..n] + [e];
    ReplaySnoc(s.creator, s.owner, s.events[..n], e);
    StartedHasStatus(s.creator, s.owner, s.events[..n]);
    var g := Replay(s.creator, s.owner, s.events[..n]).value;
    before := s.(status := g.status.value, reviewer := g.reviewer, events := s.events[..n]);
    SameHeader(x, s, before);
    forall i | 0 <= i < n ensures EventOk(x, s.observation, before.events[i], i) {
      assert before.events[i] == s.events[i];
    }
    OpenedOnce(s.creator, s.owner, g, e);
    CommandWrites(x, s, before, e);
  }

  lemma SameHeader(x: Syntax, a: State, b: State)
    requires HeaderOk(x, a) && b == a.(status := b.status, reviewer := b.reviewer, events := b.events)
    ensures HeaderOk(x, b)
  {
  }

  lemma OpenedOnce(creator: string, owner: string, g: Progress, e: Event)
    requires g.status.Some? && Advance(creator, owner, g, e).Some?
    ensures e.kind != OpenedEvent
  {
  }

  /** A dispute state is reachable exactly when its status and reviewer follow from a lawful journal. */
  lemma ReachableIffGood(x: Syntax, s: State)
    requires Sensible(x)
    ensures Reachable(x, s) <==> Good(x, s)
    ensures Reachable(x, s) && s.status != Opened ==> s.reviewer != s.creator && s.reviewer != s.owner
  {
    hide Good, Step, Open;
    if Reachable(x, s) {
      var start, commands :| Opening(x, start) && Run(x, start, commands) == s;
      OpeningIsGood(x, start);
      RunKeeps(x, start, commands);
      GoodIsIndependent(x, s);
    }
    if Good(x, s) { GoodIsReachable(x, s); }
  }

  lemma OpeningIsGood(x: Syntax, s: State)
    requires Opening(x, s)
    ensures Good(x, s)
  {
    hide Open, Good;
    var p, statement, now :| Open(x, p, s.id, s.observation, s.subject, s.owner, statement, now) == Some(s);
    OpenIsGood(x, p, s.id, s.observation, s.subject, s.owner, statement, now);
  }

  lemma GoodIsIndependent(x: Syntax, s: State)
    requires Good(x, s)
    ensures s.status != Opened ==> s.reviewer != s.creator && s.reviewer != s.owner
  {
    ReviewerIsIndependent(s.creator, s.owner, s.events);
  }

  // ----- who wrote the journal

  /** What an event's author must be allowed to do. */
  function Scopes(kind: Kind): set<Scope>
  {
    match kind
    case OpenedEvent => {DisputeCreate}
    case OwnerResponse => {DisputeCreate, OwnershipManage}
    case _ => {ModerationReview}
  }

  predicate May(x: Syntax, p: Principal, scopes: set<Scope>) { x.principalOk(p.id) && scopes <= p.scopes }

  /** The command wrote the event: its author, time and words are the event's. */
  predicate Writes(c: Command, e: Event)
  {
    match c
    case Respond(p, ownership, statement, now) =>
      e == Event(e.sequence, OwnerResponse, p.id, now, statement, "") && ownership.current && ownership.owner == p.id
    case Review(p, now) => e == Event(e.sequence, ReviewStarted, p.id, now, "review_started", "")
    case Settle(p, resolution, now) => e == Event(e.sequence, ResolvedEvent, p.id, now, resolution, "")
    case Replace(p, replacement, reason, now) => e == Event(e.sequence, SupersededEvent, p.id, now, reason, replacement)
  }

  /** Some command of an author with the scopes for it wrote the event. */
  ghost predicate Authored(x: Syntax, commands: seq<Command>, e: Event)
  {
    exists i :: 0 <= i < |commands| && Writes(commands[i], e) && May(x, commands[i].actor, Scopes(e.kind))
  }

  lemma StepWrites(x: Syntax, s: State, c: Command)
    ensures var next := Step(x, s, c);
            next == s || (next.events == s.events + [next.events[|s.events|]] &&
                          Writes(c, next.events[|s.events|]) && May(x, c.actor, Scopes(next.events[|s.events|].kind)))
    ensures Step(x, s, c).subject == s.subject && Step(x, s, c).owner == s.owner && Step(x, s, c).creator == s.creator
  {
  }

  /** Every event after those at the start was written by a command of the run, whose author had the scopes for it. */
  lemma {:induction false} EventsAreAuthored(x: Syntax, s: State, commands: seq<Command>, k: nat)
    requires |s.events| <= k < |Run(x, s, commands).events|
    ensures Authored(x, commands, Run(x, s, commands).events[k])
  {
    hide Step, Writes, Scopes, May;
    if commands != [] {
      var n := |commands| - 1;
      var before := Run(x, s, commands[..n]);
      StepWrites(x, before, commands[n]);
      if k < |before.events| {
        EventsAreAuthored(x, s, commands[..n], k);
        var i :| 0 <= i < n && Writes(commands[..n][i], before.events[k]) && May(x, commands[..n][i].actor, Scopes(before.events[k].kind));
        assert Writes(commands[i], before.events[k]);
      }
    }
  }

  /** An open dispute is the work of someone who may create disputes. */
  lemma OpenIsAuthored(x: Syntax, p: Principal, id: string, observation: string, subject: string, owner: string, statement: string, now: int)
    ensures Open(x, p, id, observation, subject, owner, statement, now).Some? <==>
            && May(x, p, Scopes(OpenedEvent)) && x.idOk(id) && x.digestOk(observation) && x.subjectOk(subject)
            && x.principalOk(owner) && x.reasonOk(statement) && now != 0
    ensures Open(x, p, id, observation, subject, owner, statement, now).Some? ==>
              Open(x, p, id, observation, subject, owner, statement, now).value ==
              State(id, observation, subject, p.id, owner, "", Opened, [Event(1, OpenedEvent, p.id, now, statement, "")])
  {
  }

  /** A started review belongs to its reviewer: starting it again changes nothing, and no one else can start one. */
  lemma ReviewIsExclusive(x: Syntax, s: State, p: Principal, now: int, q: Principal, later: int)
    requires Allows(x, s, Review(p, now))
    ensures var t := Step(x, s, Review(p, now));
            && t.status == UnderReview && t.reviewer == p.id
            && Allows(x, t, Review(p, later)) && Step(x, t, Review(p, later)) == t
            && (q.id != p.id ==> !Allows(x, t, Review(q, later)))
  {
  }

  // ----- restoring snapshots

  /** The loop over a snapshot's events. */
  method CheckEvents(x: Syntax, events: seq<Event>) returns (ok: bool)
    ensures ok <==> Journaled(x, events)
  {
    var previous := 0;
    for index := 0 to |events|
      invariant forall i :: 0 <= i < index ==> RestorableAt(x, events, i)
      invariant previous == TimeBefore(events, index)
    {
      var e := events[index];
      assert RestorableAt(x, events, index) <==> Restorable(x, e, index, previous);
      if !Restorable(x, e, index, previous) { return false; }
      previous := e.at;
    }
    ok := true;
  }

  predicate Restorable(x: Syntax, e: Event, i: nat, previous: int)
  {
    && e.sequence == i + 1 && e.at != 0 && e.at >= previous && x.principalOk(e.actor) && x.reasonOk(e.statement)
    && (if e.kind == SupersededEvent then x.digestOk(e.replacement) else e.replacement == "")
  }

  /** The time of the event before this one; none is the unset time. */
  function TimeBefore(events: seq<Event>, i: nat): int
    requires i <= |events|
  {
    if i == 0 then 0 else events[i - 1].at
  }

  predicate RestorableAt(x: Syntax, events: seq<Event>, i: nat)
    requires i < |events|
  {
    Restorable(x, events[i], i, TimeBefore(events, i))
  }

  ghost predicate Journaled(x: Syntax, events: seq<Event>)
  {
    forall i :: 0 <= i < |events| ==> RestorableAt(x, events, i)
  }

  /** A journal restores exactly when it is numbered from 1, its times are set and never fall, its authors and
      statements are proper, and replacements stand with supersessions only. */
  lemma JournaledIff(x: Syntax, events: seq<Event>)
    ensures Journaled(x, events) <==>
            && (forall i :: 0 <= i < |events| ==> events[i].sequence == i + 1 && events[i].at != 0)
            && (forall i :: 0 <= i < |events| ==> x.principalOk(events[i].actor) && x.reasonOk(events[i].statement))
            && (forall i :: 0 <= i < |events| ==>
                  if events[i].kind == SupersededEvent then x.digestOk(events[i].replacement) else events[i].replacement == "")
            && (events != [] ==> events[0].at > 0)
            && (forall i :: 0 < i < |events| ==> events[i - 1].at <= events[i].at)
  {
    if Journaled(x, events) {
      forall i | 0 <= i < |events|
        ensures Restorable(x, events[i], i, TimeBefore(events, i))
      {
        assert RestorableAt(x, events, i);
      }
    } else {
      var i :| 0 <= i < |events| && !RestorableAt(x, events, i);
      assert i > 0 ==> events[i - 1].at == TimeBefore(events, i);
    }
  }

  /** Exactly the snapshots that restoring accepts. */
  ghost predicate Accepted(x: Syntax, s: State)
  {
    && HeaderOk(x, s) && (s.status != Opened ==> x.principalOk(s.reviewer)) && s.events != [] && Journaled(x, s.events)
    && s.events[0].kind == OpenedEvent && s.events[0].actor == s.creator
  }

  method Restore(x: Syntax, s: State) returns (dispute: Dispute?)
    ensures dispute != null <==> Accepted(x, s)
    ensures dispute != null ==> fresh(dispute) && dispute.Snapshot() == s && dispute.syntax == x
  {
    hide Restorable;
    if !x.idOk(s.id) || !x.digestOk(s.observation) || !x.subjectOk(s.subject) { return null; }
    if !x.principalOk(s.creator) || !x.principalOk(s.owner) { return null; }
    if s.status != Opened && !x.principalOk(s.reviewer) { return null; }
    if |s.events| == 0 { return null; }
    var ok := CheckEvents(x, s.events);
    if !ok { return null; }
    if s.events[0].kind != OpenedEvent || s.events[0].actor != s.creator { return null; }
    dispute := new Dispute(x, s);
  }

  /** The recorded times never run backwards, from an unset clock on. */
  ghost predicate ClockAdvances(events: seq<Event>)
  {
    forall i :: 0 <= i < |events| ==> events[i].at >= TimeBefore(events, i)
  }

  /** A reachable snapshot is accepted, unchanged, exactly when its clock never ran backwards. */
  lemma ReachableRestores(x: Syntax, s: State)
    requires Sensible(x) && Good(x, s)
    ensures Accepted(x, s) <==> ClockAdvances(s.events)
  {
    hide Replay, Advance;
    forall i | 0 <= i < |s.events| ensures RestorableAt(x, s.events, i) <==> s.events[i].at >= TimeBefore(s.events, i) {
      assert EventOk(x, s.observation, s.events[i], i);
    }
    FirstEvent(s.creator, s.owner, s.events);
    if s.status != Opened { ReviewerOk(x, s); }
  }

  lemma {:induction false} FirstEvent(creator: string, owner: string, events: seq<Event>)
    requires Replay(creator, owner, events).Some? && events != []
    ensures events[0].kind == OpenedEvent && events[0].actor == creator
  {
    if |events| > 1 { FirstEvent(creator, owner, events[..|events| - 1]); }
  }

  lemma ReviewerOk(x: Syntax, s: State)
    requires Good(x, s) && s.status != Opened
    ensures x.principalOk(s.reviewer)
  {
    ReviewerActs(x, s.creator, s.owner, s.events);
  }

  lemma {:induction false} ReviewerActs(x: Syntax, creator: string, owner: string, events: seq<Event>)
    requires Replay(creator, owner, events).Some? && (forall i :: 0 <= i < |events| ==> x.principalOk(events[i].actor))
    ensures var g := Replay(creator, owner, events).value; g.reviewer != "" ==> x.principalOk(g.reviewer)
    ensures var g := Replay(creator, owner, events).value; g.status != None && g.status != Some(Opened) ==> x.principalOk(g.reviewer)
  {
    if events != [] {
      var n := |events| - 1;
      assert forall i :: 0 <= i < n ==> events[..n][i] == events[i];
      ReviewerActs(x, creator, owner, events[..n]);
    }
  }

  /** A clock that runs backwards between two calls makes an unrestorable snapshot. */
  lemma BackwardClockIsNotRestorable(x: Syntax, p: Principal, reviewer: Principal, id: string, observation: string, subject: string, owner: string, statement: string)
    requires Sensible(x) && Open(x, p, id, observation, subject, owner, statement, 2).Some?
    requires Holds(x, reviewer, ModerationReview) && reviewer.id != p.id && reviewer.id != owner
    ensures var s := Run(x, Open(x, p, id, observation, subject, owner, statement, 2).value, [Review(reviewer, 1)]);
            s.status == UnderReview && Good(x, s) && !Accepted(x, s)
  {
    hide Good;
    var start := Open(x, p, id, observation, subject, owner, statement, 2).value;
    OpenIsGood(x, p, id, observation, subject, owner, statement, 2);
    RunKeeps(x, start, [Review(reviewer, 1)]);
    RunSnoc(x, start, [], Review(reviewer, 1));
    assert [] + [Review(reviewer, 1)] == [Review(reviewer, 1)];
    var s := Run(x, start, [Review(reviewer, 1)]);
    assert s.events[1].at == 1 && s.events[0].at == 2;
    ReachableRestores(x, s);
  }

  /** Restoring does not replay the journal: a creator may come back as the reviewer of a
      resolved dispute whose journal only opened it. */
  lemma RestoreTrustsTheStatus(x: Syntax, p: Principal, id: string, observation: string, subject: string, owner: string, statement: string)
    requires Sensible(x) && Open(x, p, id, observation, subject, owner, statement, 1).Some?
    ensures var s := Open(x, p, id, observation, subject, owner, statement, 1).value.(status := Resolved, reviewer := p.id);
            Accepted(x, s) && !Reachable(x, s)
  {
    hide Reachable;
    var start := Open(x, p, id, observation, subject, owner, statement, 1).value;
    var e := start.events[0];
    assert start.events == [] + [e];
    ReplaySnoc(p.id, owner, [], e);
    assert RestorableAt(x, start.events, 0);
    ReachableIffGood(x, start.(status := Resolved, reviewer := p.id));
  }
}
