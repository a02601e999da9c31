/**
 Sensitive-content purges (internal/registry/purge.go): five targets, each
 brought to a terminal status once, and a journal.  Times are numbers with zero
 meaning unset; a day is 86400 of them.
 */
module Purge {
  import opened Common
  import opened RegistryAuth

  const DAY := 86400

  datatype Target = ObjectStore | Cdn | Search | Cache | PublicPage | UnknownTarget(name: string)

  const TARGETS: set<Target> := {ObjectStore, Cdn, Search, Cache, PublicPage}

  datatype TargetStatus = Pending | Purged | NotApplicable | UnknownStatus(name: string)

  datatype Status = Requested | InProgress | Completed

  datatype Reason = Secret | Pii | Unlawful | Unauthorized | UnknownReason(name: string)

  datatype Action = Request | Begin | Mark(target: Target, status: TargetStatus) | Finish

  datatype Event = Event(sequence: nat, actor: string, action: Action, at: int)

  datatype State = State(
    eventId: string, reason: Reason, status: Status, requestedAt: int, deadline: int, completedAt: int,
    targets: map<Target, TargetStatus>, events: seq<Event>)

  datatype Command = Start(actor: Principal, now: int) | CompleteTarget(actor: Principal, target: Target, status: TargetStatus, now: int)

  predicate Terminal(t: TargetStatus) { t == Purged || t == NotApplicable }

  ghost predicate AllTerminal(targets: map<Target, TargetStatus>)
  {
    forall t :: t in targets ==> targets[t] != Pending
  }

  function Log(s: State, actor: string, action: Action, now: int): State
  {
    s.(events := s.events + [Event(|s.events| + 1, actor, action, now)])
  }

  function AllPending(): map<Target, TargetStatus>
  {
    map t | t in TARGETS :: Pending
  }

  function Open(x: Syntax, p: Principal, eventId: string, reason: Reason, now: int): Option<State>
  {
    if Holds(x, p, ModerationReview) && x.idOk(eventId) && !reason.UnknownReason? && now != 0
    then Some(Log(State(eventId, reason, Requested, now, now + DAY, 0, AllPending(), []), p.id, Request, now))
    else None
  }

  /** The new state, or nothing when the command is refused. */
  ghost function Outcome(x: Syntax, s: State, c: Command): Option<State>
  {
    match c
    case Start(p, now) =>
      if !Holds(x, p, ModerationReview) then None
      else if s.status == InProgress then Some(s)
      else if s.status != Requested || now == 0 then None
      else Some(Log(s.(status := InProgress), p.id, Begin, now))
    case CompleteTarget(p, target, status, now) =>
      if !Holds(x, p, ModerationReview) || target !in s.targets || !Terminal(status) then None
      else if s.status == Completed then if s.targets[target] == status then Some(s) else None
      else if s.status != InProgress then None
      else if s.targets[target] == status then Some(s)
      else if s.targets[target] != Pending || now == 0 then None
      else
        var marked := Log(s.(targets := s.targets[target := status]), p.id, Mark(target, status), now);
        if AllTerminal(marked.targets) then Some(Log(marked.(status := Completed, completedAt := now), p.id, Finish, now))
        else Some(marked)
  }

  ghost function Step(x: Syntax, s: State, c: Command): State
  {
    var next := Outcome(x, s, c); if next.Some? then next.value else s
  }

  ghost function Run(x: Syntax, s: State, commands: seq<Command>): State
  {
    if commands == [] then s else Step(x, Run(x, s, commands[..|commands| - 1]), commands[|commands| - 1])
  }

  class PurgeRequest {
    const syntax: Syntax
    const eventId: string
    const reason: Reason
    const requestedAt: int
    const deadline: int
    var status: Status
    var completedAt: int
    var targets: map<Target, TargetStatus>
    var events: seq<Event>

    function Snapshot(): State
      reads this
    {
      State(eventId, reason, status, requestedAt, deadline, completedAt, targets, events)
    }

    constructor (syntax: Syntax, s: State)
      ensures this.syntax == syntax && Snapshot() == s
    {
      this.syntax := syntax;
      eventId, reason, requestedAt, deadline := s.eventId, s.reason, s.requestedAt, s.deadline;
      status, completedAt, targets, events := s.status, s.completedAt, s.targets, s.events;
    }

    method AppendEvent(actor: string, action: Action, now: int)
      modifies this`events
      ensures Snapshot() == Log(old(Snapshot()), actor, action, now)
    {
      events := events + [Event(|events| + 1, actor, action, now)];
    }

    method AllTargetsTerminal() returns (all: bool)
      ensures all <==> AllTerminal(targets)
    {
      var rest := targets.Keys;
      while rest != {}
        invariant rest <= targets.Keys
        invariant forall t :: t in targets && t !in rest ==> targets[t] != Pending
        decreases |rest|
      {
        var t :| t in rest;
        if targets[t] == Pending { return false; }
        rest := rest - {t};
      }
      all := true;
    }

    method StartPurge(p: Principal, now: int) returns (ok: bool)
      modifies this
      ensures ok == Outcome(syntax, old(Snapshot()), Start(p, now)).Some?
      ensures Snapshot() == Step(syntax, old(Snapshot()), Start(p, now))
    {
      if !Holds(syntax, p, ModerationReview) { return false; }
      if status == InProgress { return true; }
      if status != Requested || now == 0 { return false; }
      status := InProgress;
      AppendEvent(p.id, Begin, now);
      ok := true;
    }

    method Complete(p: Principal, target: Target, to: TargetStatus, now: int) returns (ok: bool)
      modifies this
      ensures ok == Outcome(syntax, old(Snapshot()), CompleteTarget(p, target, to, now)).Some?
      ensures Snapshot() == Step(syntax, old(Snapshot()), CompleteTarget(p, target, to, now))
    {
      hide AllTerminal;
      if !Holds(syntax, p, ModerationReview) { return false; }
      if target !in targets { return false; }
      if to != Purged && to != NotApplicable { return false; }
      var current := targets[target];
      if status == Completed && current == to { return true; }
      if status != InProgress { return false; }
      if current == to { return true; }
      if current != Pending { return false; }
      if now == 0 { return false; }
      targets := targets[target := to];
      AppendEvent(p.id, Mark(target, to), now);
      var all := AllTargetsTerminal();
      if all {
        status := Completed;
        completedAt := now;
        AppendEvent(p.id, Finish, now);
      }
      ok := true;
    }

    method MissedDeadline(now: int) returns (missed: bool)
      ensures missed <==> status != Completed && now != 0 && now >= deadline
    {
      missed := status != Completed && now != 0 && now >= deadline;
    }
  }

  method NewPurgeRequest(x: Syntax, p: Principal, eventId: string, reason: Reason, now: int) returns (request: PurgeRequest?)
    ensures request != null <==> Open(x, p, eventId, reason, now).Some?
    ensures request != null ==> fresh(request) && request.syntax == x && request.Snapshot() == Open(x, p, eventId, reason, now).value
  {
    if !Holds(x, p, ModerationReview) || !x.idOk(eventId) || reason.UnknownReason? || now == 0 { return null; }
    request := new PurgeRequest(x, State(eventId, reason, Requested, now, now + DAY, 0, AllPending(), []));
    request.AppendEvent(p.id, Request, now);
  }

  // ----- the journal decides everything

  /** What a journal has established so far. */
  datatype Progress = Progress(status: Option<Status>, targets: map<Target, TargetStatus>, completedAt: int)

  ghost function Advance(g: Progress, e: Event): Option<Progress>
  {
    match e.action
    case Request => if g.status == None then Some(Progress(Some(Requested), AllPending(), 0)) else None
    case Begin => if g.status == Some(Requested) then Some(g.(status := Some(InProgress))) else None
    case Mark(t, status) =>
      if g.status == Some(InProgress) && t in g.targets && g.targets[t] == Pending && Terminal(status)
      then Some(g.(targets := g.targets[t := status])) else None
    case Finish =>
      if g.status == Some(InProgress) && AllTerminal(g.targets) then Some(g.(status := Some(Completed), completedAt := e.at)) else None
  }

  ghost function Replay(events: seq<Event>): Option<Progress>
  {
    if events == [] then Some(Progress(None, map[], 0))
    else
      var before := Replay(events[..|events| - 1]);
      if before.None? then None else Advance(before.value, events[|events| - 1])
  }

  lemma ReplaySnoc(events: seq<Event>, e: Event)
    ensures Replay(events + [e]) == var before := Replay(events); if before.None? then None else Advance(before.value, e)
  {
    assert (events + [e])[..|events|] == events;
  }

  ghost predicate EventOk(x: Syntax, e: Event, i: nat)
  {
    e.sequence == i + 1 && e.at != 0 && x.principalOk(e.actor)
  }

  ghost predicate WellLogged(x: Syntax, events: seq<Event>)
  {
    forall i :: 0 <= i < |events| ==> EventOk(x, events[i], i)
  }

  /**
   The state follows from its journal; a purge is completed exactly when every
   target is terminal, and requested only while none is.
   */
  ghost predicate Good(x: Syntax, s: State)
  {
    && Replay(s.events) == Some(Progress(Some(s.status), s.targets, s.completedAt)) && WellLogged(x, s.events)
    && s.deadline == s.requestedAt + DAY && s.targets.Keys == TARGETS
    && (s.status == Completed <==> AllTerminal(s.targets))
    && (s.status == Requested ==> forall t :: t in s.targets ==> s.targets[t] == Pending)
    && (s.completedAt != 0 <==> s.status == Completed)
  }

  lemma WellLoggedSnoc(x: Syntax, events: seq<Event>, e: Event)
    requires WellLogged(x, events) && EventOk(x, e, |events|)
    ensures WellLogged(x, events + [e])
  {
    hide EventOk;
    forall i | 0 <= i < |events + [e]| ensures EventOk(x, (events + [e])[i], i) {
      if i < |events| { assert (events + [e])[i] == events[i]; }
    }
  }

  lemma OpenIsGood(x: Syntax, p: Principal, eventId: string, reason: Reason, now: int)
    ensures Open(x, p, eventId, reason, now).Some? ==> Good(x, Open(x, p, eventId, reason, now).value)
  {
    var s := Open(x, p, eventId, reason, now);
    if s.Some? {
      var e := s.value.events[0];
      ReplaySnoc([], e);
      assert s.value.events == [] + [e];
      assert AllPending()[Cdn] == Pending;
    }
  }

  lemma StartKeeps(x: Syntax, s: State, p: Principal, now: int)
    requires Good(x, s)
    ensures Good(x, Step(x, s, Start(p, now)))
  {
    hide Replay, WellLogged, AllTerminal, AllPending;
    var next := Step(x, s, Start(p, now));
    if next != s {
      var e := Event(|s.events| + 1, p.id, Begin, now);
      ReplaySnoc(s.events, e);
      WellLoggedSnoc(x, s.events, e);
    }
  }

  /** The target moves and the journal says so. */
  lemma MarkedReplays(x: Syntax, s: State, p: Principal, target: Target, status: TargetStatus, now: int)
    requires Good(x, s) && s.status == InProgress && target in s.targets && s.targets[target] == Pending
    requires Terminal(status) && now != 0 && x.principalOk(p.id)
    ensures var marked := Log(s.(targets := s.targets[target := status]), p.id, Mark(target, status), now);
            && Replay(marked.events) == Some(Progress(Some(InProgress), marked.targets, 0)) && WellLogged(x, marked.events)
            && marked.targets.Keys == TARGETS
  {
    hide Replay, WellLogged, AllTerminal, AllPending;
    var e := Event(|s.events| + 1, p.id, Mark(target, status), now);
    ReplaySnoc(s.events, e);
    WellLoggedSnoc(x, s.events, e);
  }

  lemma CompleteKeeps(x: Syntax, s: State, p: Principal, target: Target, status: TargetStatus, now: int)
    requires Good(x, s)
    ensures Good(x, Step(x, s, CompleteTarget(p, target, status, now)))
  {
    hide Replay, WellLogged, AllTerminal, AllPending;
    var next := Step(x, s, CompleteTarget(p, target, status, now));
    if next != s {
      MarkedReplays(x, s, p, target, status, now);
      var marked := Log(s.(targets := s.targets[target := status]), p.id, Mark(target, status), now);
      var e := Event(|marked.events| + 1, p.id, Finish, now);
      ReplaySnoc(marked.events, e);
      WellLoggedSnoc(x, marked.events, e);
    }
  }

  lemma StepKeeps(x: Syntax, s: State, c: Command)
    requires Good(x, s)
    ensures Good(x, Step(x, s, c))
  {
    hide Good, Step;
    match c
    case Start(p, now) => StartKeeps(x, s, p, now);
    case CompleteTarget(p, target, status, now) => CompleteKeeps(x, s, p, target, status, now);
  }

  /** In every reachable state the purge is completed exactly when all targets are terminal. */
  lemma {:induction false} RunKeeps(x: Syntax, s: State, commands: seq<Command>)
    requires Good(x, s)
    ensures Good(x, Run(x, s, commands))
  {
    hide Good, Step;
    if commands != [] {
      RunKeeps(x, s, commands[..|commands| - 1]);
      StepKeeps(x, Run(x, s, commands[..|commands| - 1]), commands[|commands| - 1]);
    }
  }

  /** Terminal targets keep their status, and the journal only grows. */
  ghost predicate Continues(a: State, b: State)
  {
    && a.targets.Keys == b.targets.Keys && a.events <= b.events
    && (forall t :: t in a.targets && a.targets[t] != Pending ==> b.targets[t] == a.targets[t])
    && (a.status == Completed ==> b == a)
  }

  lemma StepContinues(x: Syntax, s: State, c: Command)
    ensures Continues(s, Step(x, s, c))
  {
    hide AllTerminal;
  }

  lemma ContinuesTrans(a: State, b: State, c: State)
    requires Continues(a, b) && Continues(b, c)
    ensures Continues(a, c)
  {
  }

  /** No run of commands ever changes a terminal target, a finished purge or a written event. */
  lemma {:induction false} RunContinues(x: Syntax, s: State, commands: seq<Command>)
    ensures Continues(s, Run(x, s, commands))
  {
    hide Continues, Step;
    if commands == [] {
      Itself(s);
    } else {
      var n := |commands| - 1;
      RunContinues(x, s, commands[..n]);
      StepContinues(x, Run(x, s, commands[..n]), commands[n]);
      ContinuesTrans(s, Run(x, s, commands[..n]), Step(x, Run(x, s, commands[..n]), commands[n]));
    }
  }

  lemma Itself(s: State)
    ensures Continues(s, s)
  {
  }

  // ----- what is accepted, and that every purge can be finished

  predicate Moderates(x: Syntax, p: Principal) { x.principalOk(p.id) && ModerationReview in p.scopes }

  /** A request opens exactly for a moderator, with a known reason at a set time, due in a day with all five targets pending. */
  lemma OpensIff(x: Syntax, p: Principal, eventId: string, reason: Reason, now: int)
    ensures Open(x, p, eventId, reason, now).Some? <==> Moderates(x, p) && x.idOk(eventId) && !reason.UnknownReason? && now != 0
    ensures Open(x, p, eventId, reason, now).Some? ==>
              var s := Open(x, p, eventId, reason, now).value;
              && s.requestedAt == now && s.deadline == now + 24 * 60 * 60 && s.status == Requested && s.completedAt == 0
              && s.targets == map[ObjectStore := Pending, Cdn := Pending, Search := Pending, Cache := Pending, PublicPage := Pending]
              && s.events == [Event(1, p.id, Request, now)]
  {
    var targets := map[ObjectStore := Pending, Cdn := Pending, Search := Pending, Cache := Pending, PublicPage := Pending];
    assert AllPending() == targets;
  }

  /** Starting succeeds exactly for a moderator while requested, or again while in progress. */
  lemma StartIff(x: Syntax, s: State, p: Principal, now: int)
    ensures Outcome(x, s, Start(p, now)).Some? <==>
            Moderates(x, p) && (s.status == InProgress || (s.status == Requested && now != 0))
    ensures Step(x, s, Start(p, now)) ==
            if Moderates(x, p) && s.status == Requested && now != 0
            then s.(status := InProgress, events := s.events + [Event(|s.events| + 1, p.id, Begin, now)]) else s
  {
    hide AllTerminal;
  }

  /** A target is marked exactly when a moderator brings it from pending to a terminal status during the purge;
      marking it again alike succeeds and changes nothing, and any other mark is refused. */
  lemma MarkIff(x: Syntax, s: State, p: Principal, t: Target, to: TargetStatus, now: int)
    ensures var first := s.status == InProgress && t in s.targets && s.targets[t] == Pending && now != 0;
            var again := s.status in {InProgress, Completed} && t in s.targets && s.targets[t] == to;
            && (Outcome(x, s, CompleteTarget(p, t, to, now)).Some? <==>
                  Moderates(x, p) && (to == Purged || to == NotApplicable) && (first || again))
            && (Step(x, s, CompleteTarget(p, t, to, now)).targets ==
                  if Moderates(x, p) && (to == Purged || to == NotApplicable) && first then s.targets[t := to] else s.targets)
  {
    hide AllTerminal;
  }

  /** Starts, then marks the targets of a list, in order. */
  function Marking(p: Principal, order: seq<Target>, to: Target -> TargetStatus, now: int): seq<Command>
  {
    if order == [] then [Start(p, now)]
    else Marking(p, order[..|order| - 1], to, now) + [CompleteTarget(p, order[|order| - 1], to(order[|order| - 1]), now)]
  }

  /** The targets of a list are marked and the others pending. */
  ghost predicate MarkedSoFar(s: State, order: seq<Target>, to: Target -> TargetStatus)
  {
    s.targets.Keys == TARGETS && forall t :: t in TARGETS ==> s.targets[t] == if t in order then to(t) else Pending
  }

  lemma MarksNext(x: Syntax, s: State, p: Principal, order: seq<Target>, t: Target, to: Target -> TargetStatus, now: int)
    requires Moderates(x, p) && now != 0 && t in TARGETS && t !in order && Terminal(to(t))
    requires s.status == InProgress && MarkedSoFar(s, order, to)
    ensures var next := Step(x, s, CompleteTarget(p, t, to(t), now));
            && MarkedSoFar(next, order + [t], to)
            && next.status == if AllTerminal(next.targets) then Completed else InProgress
  {
    hide AllTerminal;
  }

  /** Whatever the order and the outcomes, marking all five targets finishes the purge, and nothing less does. */
  lemma {:induction false} AnyOrderFinishes(x: Syntax, s: State, p: Principal, order: seq<Target>, to: Target -> TargetStatus, now: int)
    requires Good(x, s) && s.status == Requested && Moderates(x, p) && now != 0
    requires Distinct(order) && (forall t :: t in order ==> t in TARGETS) && forall t :: t in TARGETS ==> Terminal(to(t))
    ensures var end := Run(x, s, Marking(p, order, to, now));
            && MarkedSoFar(end, order, to)
            && end.status == if forall t :: t in TARGETS ==> t in order then Completed else InProgress
  {
    hide Step, Good, Terminal;
    if order == [] {
      StartsMarking(x, s, p, to, now);
    } else {
      var n := |order| - 1;
      var front, last := order[..n], order[n];
      assert last !in front && order == front + [last];
      AnyOrderFinishes(x, s, p, front, to, now);
      var commands := Marking(p, front, to, now);
      var before := Run(x, s, commands);
      assert last in order && last in TARGETS;
      RunSnoc(x, s, commands, CompleteTarget(p, last, to(last), now));
      MarksNext(x, before, p, front, last, to, now);
      AllMarked(Run(x, s, Marking(p, order, to, now)), order, to);
    }
  }

  lemma RunSnoc(x: Syntax, s: State, commands: seq<Command>, c: Command)
    ensures Run(x, s, commands + [c]) == Step(x, Run(x, s, commands), c)
  {
    assert (commands + [c])[..|commands|] == commands;
  }

  lemma StartsMarking(x: Syntax, s: State, p: Principal, to: Target -> TargetStatus, now: int)
    requires Good(x, s) && s.status == Requested && Moderates(x, p) && now != 0
    ensures var end := Run(x, s, [Start(p, now)]); MarkedSoFar(end, [], to) && end.status == InProgress
    ensures ObjectStore in TARGETS
  {
    hide Replay, WellLogged, AllTerminal;
    RunSnoc(x, s, [], Start(p, now));
    assert [] + [Start(p, now)] == [Start(p, now)];
  }

  lemma AllMarked(s: State, order: seq<Target>, to: Target -> TargetStatus)
    requires MarkedSoFar(s, order, to) && forall t :: t in TARGETS ==> Terminal(to(t))
    ensures AllTerminal(s.targets) <==> forall t :: t in TARGETS ==> t in order
  {
  }

  // ----- every target is marked at most once

  /** The statuses a journal gave one target, in order. */
  function Marks(events: seq<Event>, t: Target): seq<TargetStatus>
  {
    if events == [] then []
    else
      var n := |events| - 1;
      Marks(events[..n], t) +
      if events[n].action.Mark? && events[n].action.target == t then [events[n].action.status] else []
  }

  /** A pending target was never marked; any other was marked exactly once, with the status it has. */
  lemma {:induction false} MarkedOnce(events: seq<Event>, t: Target)
    requires Replay(events).Some? && t in Replay(events).value.targets
    ensures var now := Replay(events).value.targets[t]; Marks(events, t) == if now == Pending then [] else [now]
  {
    hide AllTerminal;
    if events != [] {
      var n := |events| - 1;
      if events[n].action.Request? {
        NothingBefore(events[..n]);
      } else {
        MarkedOnce(events[..n], t);
      }
    }
  }

  lemma NothingBefore(events: seq<Event>)
    requires Replay(events).Some? && Replay(events).value.status == None
    ensures events == []
  {
  }
}
