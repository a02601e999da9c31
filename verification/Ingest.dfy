/**
 Two-phase upload sessions (internal/registry/ingest.go).  Times are numbers
 with zero meaning unset.
 */
module Ingest {
  import opened Common
  import opened RegistryAuth

  datatype Status = Prepared | Staged | Committed | Validating | Quarantined | Published

  /** A session and its snapshot hold the same fields; an empty digest or class is none. */
  datatype State = State(
    session: string, owner: string, expected: string, staged: string, expiresAt: int, status: Status, quarantine: string)

  datatype Command =
    | Stage(actor: Principal, digest: string, now: int)
    | Commit(actor: Principal, digest: string, now: int)
    | BeginValidation
    | Publish
    | Quarantine(reason: string)

  predicate Expired(now: int, expiresAt: int) { now == 0 || now >= expiresAt }

  function Prepare(x: Syntax, p: Principal, session: string, expected: string, expiresAt: int, now: int): Option<State>
  {
    if Holds(x, p, ObservationPrepare) && x.idOk(session) && x.digestOk(expected) && now != 0 && expiresAt > now
    then Some(State(session, p.id, expected, "", expiresAt, Prepared, ""))
    else None
  }

  /** The new state, or nothing when the command is refused. */
  function Outcome(x: Syntax, s: State, c: Command): Option<State>
  {
    match c
    case Stage(p, digest, now) =>
      if !Owns(x, p, s.owner, ObservationPrepare) || digest != s.expected then None
      else if s.status == Staged && s.staged == digest then Some(s)
      else if s.status != Prepared || Expired(now, s.expiresAt) then None
      else Some(s.(staged := digest, status := Staged))
    case Commit(p, digest, now) =>
      if !Owns(x, p, s.owner, ObservationCommit) || digest != s.expected || (s.staged != "" && digest != s.staged) then None
      else if s.status == Prepared || (s.status == Staged && Expired(now, s.expiresAt)) then None
      else if s.status == Staged then Some(s.(status := Committed))
      else Some(s)
    case BeginValidation =>
      if s.status == Committed then Some(s.(status := Validating)) else if s.status == Validating then Some(s) else None
    case Publish =>
      if s.status == Validating then Some(s.(status := Published)) else if s.status == Published then Some(s) else None
    case Quarantine(reason) =>
      if !x.reasonOk(reason) then None
      else if s.status == Validating then Some(s.(status := Quarantined, quarantine := reason))
      else if s.status == Quarantined && s.quarantine == reason then Some(s)
      else None
  }

  function Step(x: Syntax, s: State, c: Command): State
  {
    var next := Outcome(x, s, c); if next.Some? then next.value else s
  }

  function Run(x: Syntax, s: State, commands: seq<Command>): State
  {
    if commands == [] then s else Step(x, Run(x, s, commands[..|commands| - 1]), commands[|commands| - 1])
  }

  class Session {
    const syntax: Syntax
    const session: string
    const owner: string
    const expected: string
    const expiresAt: int
    var staged: string
    var status: Status
    var quarantine: string

    function Snapshot(): State
      reads this
    {
      State(session, owner, expected, staged, expiresAt, status, quarantine)
    }

    constructor (syntax: Syntax, s: State)
      ensures this.syntax == syntax && Snapshot() == s
    {
      this.syntax := syntax;
      session, owner, expected, expiresAt := s.session, s.owner, s.expected, s.expiresAt;
      staged, status, quarantine := s.staged, s.status, s.quarantine;
    }

    method StageUpload(p: Principal, digest: string, now: int) returns (ok: bool)
      modifies this
      ensures ok == Outcome(syntax, old(Snapshot()), Stage(p, digest, now)).Some?
      ensures Snapshot() == Step(syntax, old(Snapshot()), Stage(p, digest, now))
    {
      if !Owns(syntax, p, owner, ObservationPrepare) || digest != expected { return false; }
      if status == Staged && staged == digest { return true; }
      if status != Prepared { return false; }
      if Expired(now, expiresAt) { return false; }
      staged := digest;
      status := Staged;
      ok := true;
    }

    method CommitUpload(p: Principal, digest: string, now: int) returns (ok: bool)
      modifies this
      ensures ok == Outcome(syntax, old(Snapshot()), Commit(p, digest, now)).Some?
      ensures Snapshot() == Step(syntax, old(Snapshot()), Commit(p, digest, now))
    {
      if !Owns(syntax, p, owner, ObservationCommit) { return false; }
      if digest != expected || (staged != "" && digest != staged) { return false; }
      if status == Committed || status == Validating || status == Quarantined || status == Published { return true; }
      if status == Prepared || Expired(now, expiresAt) { return false; }
      status := Committed;
      ok := true;
    }

    method Validate() returns (ok: bool)
      modifies this
      ensures ok == Outcome(syntax, old(Snapshot()), BeginValidation).Some?
      ensures Snapshot() == Step(syntax, old(Snapshot()), BeginValidation)
    {
      if status == Validating { return true; }
      if status != Committed { return false; }
      status := Validating;
      ok := true;
    }

    method PublishUpload() returns (ok: bool)
      modifies this
      ensures ok == Outcome(syntax, old(Snapshot()), Publish).Some?
      ensures Snapshot() == Step(syntax, old(Snapshot()), Publish)
    {
      if status == Published { return true; }
      if status != Validating { return false; }
      status := Published;
      ok := true;
    }

    method QuarantineUpload(reason: string) returns (ok: bool)
      modifies this
      ensures ok == Outcome(syntax, old(Snapshot()), Quarantine(reason)).Some?
      ensures Snapshot() == Step(syntax, old(Snapshot()), Quarantine(reason))
    {
      if !syntax.reasonOk(reason) { return false; }
      if status == Quarantined { return quarantine == reason; }
      if status != Validating { return false; }
      status := Quarantined;
      quarantine := reason;
      ok := true;
    }
  }

  // ----- exactly these states are reachable

  ghost predicate HeaderOk(x: Syntax, s: State)
  {
    x.idOk(s.session) && x.principalOk(s.owner) && x.digestOk(s.expected)
  }

  /** From staging on the staged digest is the prepared one, and only quarantine has a class. */
  ghost predicate Good(x: Syntax, s: State)
  {
    && HeaderOk(x, s)
    && s.staged == (if s.status == Prepared then "" else s.expected)
    && (if s.status == Quarantined then x.reasonOk(s.quarantine) else s.quarantine == "")
  }

  ghost predicate Preparation(x: Syntax, s: State)
  {
    exists p, now :: Prepare(x, p, s.session, s.expected, s.expiresAt, now) == Some(s)
  }

  ghost predicate Reachable(x: Syntax, s: State)
  {
    exists start, commands :: Preparation(x, start) && Run(x, start, commands) == s
  }

  lemma StepKeeps(x: Syntax, s: State, c: Command)
    requires Good(x, s)
    ensures Good(x, Step(x, s, c))
  {
  }

  lemma {:induction false} RunKeeps(x: Syntax, s: State, commands: seq<Command>)
    requires Good(x, s)
    ensures Good(x, Run(x, s, commands))
  {
    if commands != [] {
      RunKeeps(x, s, commands[..|commands| - 1]);
      StepKeeps(x, Run(x, s, commands[..|commands| - 1]), commands[|commands| - 1]);
    }
  }

  lemma RunSnoc(x: Syntax, s: State, commands: seq<Command>, c: Command)
    ensures Run(x, s, commands + [c]) == Step(x, Run(x, s, commands), c)
  {
    assert (commands + [c])[..|commands|] == commands;
  }

  function Rank(status: Status): nat
  {
    match status
    case Prepared => 0
    case Staged => 1
    case Committed => 2
    case Validating => 3
    case Quarantined => 4
    case Published => 4
  }

  /** A time at which the session has not expired. */
  function Before(expiresAt: int): int { if expiresAt == 1 then -1 else expiresAt - 1 }

  /** The state one transition earlier, and the command that leads on. */
  function Earlier(s: State): (State, Command)
    requires s.status != Prepared
  {
    var p := Principal(s.owner, {ObservationPrepare, ObservationCommit});
    match s.status
    case Staged => (s.(status := Prepared, staged := ""), Stage(p, s.expected, Before(s.expiresAt)))
    case Committed => (s.(status := Staged), Commit(p, s.expected, Before(s.expiresAt)))
    case Validating => (s.(status := Committed), BeginValidation)
    case Quarantined => (s.(status := Validating, quarantine := ""), Quarantine(s.quarantine))
    case Published => (s.(status := Validating), Publish)
  }

  lemma EarlierLeadsHere(x: Syntax, s: State)
    requires Sensible(x) && Good(x, s) && s.status != Prepared
    ensures var (before, c) := Earlier(s);
            Good(x, before) && Step(x, before, c) == s && Rank(before.status) < Rank(s.status)
  {
  }

  lemma {:induction false} GoodIsReachable(x: Syntax, s: State)
    requires Sensible(x) && Good(x, s)
    ensures Reachable(x, s)
    decreases Rank(s.status)
  {
    hide Good, Step, Earlier, Preparation;
    if s.status == Prepared {
      PreparedIsReachable(x, s);
      assert Run(x, s, []) == s;
    } else {
      var (before, c) := Earlier(s);
      EarlierLeadsHere(x, s);
      GoodIsReachable(x, before);
      var start, commands :| Preparation(x, start) && Run(x, start, commands) == before;
      RunSnoc(x, start, commands, c);
    }
  }

  lemma PreparedIsReachable(x: Syntax, s: State)
    requires Good(x, s) && s.status == Prepared
    ensures Preparation(x, s)
  {
    var p := Principal(s.owner, {ObservationPrepare});
    assert Prepare(x, p, s.session, s.expected, s.expiresAt, Before(s.expiresAt)) == Some(s);
  }

  /** Exactly these states are reachable; in particular published means staged as prepared and never quarantined. */
  lemma ReachableIffGood(x: Syntax, s: State)
    requires Sensible(x)
    ensures Reachable(x, s) <==> Good(x, s)
    ensures Reachable(x, s) && s.status == Published ==> s.staged == s.expected && s.quarantine == ""
  {
    hide Step;
    if Reachable(x, s) {
      var start, commands :| Preparation(x, start) && Run(x, start, commands) == s;
      RunKeeps(x, start, commands);
    }
    if Good(x, s) { GoodIsReachable(x, s); }
  }

  // ----- over whole runs

  /** Statuses only advance, one rank at a time, and the identity never changes. */
  lemma StepAdvances(x: Syntax, s: State, c: Command)
    ensures var next := Step(x, s, c);
            && Rank(s.status) <= Rank(next.status) <= Rank(s.status) + 1
            && next == s.(staged := next.staged, status := next.status, quarantine := next.quarantine)
            && (Rank(s.status) == 4 ==> next == s)
  {
  }

  /** A published or quarantined session never changes again. */
  lemma {:induction false} EndIsFinal(x: Syntax, s: State, commands: seq<Command>)
    requires s.status == Published || s.status == Quarantined
    ensures Run(x, s, commands) == s
  {
    if commands != [] { EndIsFinal(x, s, commands[..|commands| - 1]); }
  }

  lemma {:induction false} RunAdvances(x: Syntax, s: State, commands: seq<Command>)
    ensures var end := Run(x, s, commands);
            Rank(s.status) <= Rank(end.status) && end.owner == s.owner && end.expected == s.expected
  {
    hide Step;
    if commands != [] {
      var n := |commands| - 1;
      RunAdvances(x, s, commands[..n]);
      StepAdvances(x, Run(x, s, commands[..n]), commands[n]);
    }
  }

  /** After a successful commit, replaying it at any later point and any time succeeds and changes nothing. */
  lemma CommitReplays(x: Syntax, s: State, p: Principal, digest: string, now: int, commands: seq<Command>, later: int)
    requires Good(x, s) && Outcome(x, s, Commit(p, digest, now)).Some?
    ensures var end := Run(x, Step(x, s, Commit(p, digest, now)), commands); Outcome(x, end, Commit(p, digest, later)) == Some(end)
  {
    var committed := Step(x, s, Commit(p, digest, now));
    StepKeeps(x, s, Commit(p, digest, now));
    RunKeeps(x, committed, commands);
    RunAdvances(x, committed, commands);
  }

  // ----- who may do what, and when

  /** Between preparation and expiry, at a time that is set. */
  predicate InTime(now: int, expiresAt: int) { now != 0 && now < expiresAt }

  predicate IsOwnerWith(x: Syntax, s: State, p: Principal, scope: Scope)
  {
    x.principalOk(p.id) && p.id == s.owner && scope in p.scopes
  }

  /** The command names the right party and content. */
  predicate Entitled(x: Syntax, s: State, c: Command)
  {
    match c
    case Stage(p, digest, _) => IsOwnerWith(x, s, p, ObservationPrepare) && digest == s.expected
    case Commit(p, digest, _) => IsOwnerWith(x, s, p, ObservationCommit) && digest == s.expected && s.staged in {"", digest}
    case Quarantine(reason) => x.reasonOk(reason)
    case _ => true
  }

  function From(c: Command): Status
  {
    match c
    case Stage(_, _, _) => Prepared
    case Commit(_, _, _) => Staged
    case BeginValidation => Committed
    case Publish => Validating
    case Quarantine(_) => Validating
  }

  function To(c: Command): Status
  {
    match c
    case Stage(_, _, _) => Staged
    case Commit(_, _, _) => Committed
    case BeginValidation => Validating
    case Publish => Published
    case Quarantine(_) => Quarantined
  }

  predicate Timed(s: State, c: Command)
  {
    match c
    case Stage(_, _, now) => InTime(now, s.expiresAt)
    case Commit(_, _, now) => InTime(now, s.expiresAt)
    case _ => true
  }

  /** The session already stands where the command leads, or for a commit beyond it. */
  predicate Repeats(s: State, c: Command)
  {
    match c
    case Stage(_, digest, _) => s.status == Staged && s.staged == digest
    case Commit(_, _, _) => s.status !in {Prepared, Staged}
    case Quarantine(reason) => s.status == Quarantined && s.quarantine == reason
    case _ => s.status == To(c)
  }

  /** Where a command leads. */
  function Moved(s: State, c: Command): State
  {
    match c
    case Stage(_, digest, _) => s.(status := Staged, staged := digest)
    case Quarantine(reason) => s.(status := Quarantined, quarantine := reason)
    case _ => s.(status := To(c))
  }

  /** A command succeeds exactly when it is entitled and either comes from the stage before, in time, or
      repeats what was done; only the former changes anything. */
  lemma OutcomeIff(x: Syntax, s: State, c: Command)
    ensures Outcome(x, s, c).Some? <==> Entitled(x, s, c) && ((s.status == From(c) && Timed(s, c)) || Repeats(s, c))
    ensures Step(x, s, c) == if Entitled(x, s, c) && s.status == From(c) && Timed(s, c) then Moved(s, c) else s
  {
  }

  /** A preparation succeeds exactly with the scope, proper fields and an expiry still to come. */
  lemma PreparesIff(x: Syntax, p: Principal, session: string, expected: string, expiresAt: int, now: int)
    ensures Prepare(x, p, session, expected, expiresAt, now) ==
            if x.principalOk(p.id) && ObservationPrepare in p.scopes && x.idOk(session) && x.digestOk(expected) && InTime(now, expiresAt)
            then Some(State(session, p.id, expected, "", expiresAt, Prepared, "")) else None
  {
  }

  /** Some command of the run led to this stage from the one before, was entitled and in time. */
  ghost predicate LedTo(x: Syntax, s: State, commands: seq<Command>, status: Status)
  {
    exists i :: 0 <= i < |commands| && LedToAt(x, s, commands, status, i)
  }

  predicate LedToAt(x: Syntax, s: State, commands: seq<Command>, status: Status, i: nat)
    requires i < |commands|
  {
    var before := Run(x, s, commands[..i]);
    To(commands[i]) == status && before.status == From(commands[i]) && Entitled(x, before, commands[i]) && Timed(before, commands[i])
  }

  lemma LedToSnoc(x: Syntax, s: State, commands: seq<Command>, c: Command, status: Status)
    ensures LedTo(x, s, commands, status) ==> LedTo(x, s, commands + [c], status)
    ensures var before := Run(x, s, commands);
            To(c) == status && before.status == From(c) && Entitled(x, before, c) && Timed(before, c) ==> LedTo(x, s, commands + [c], status)
  {
    hide Run, Entitled, Timed;
    var longer := commands + [c];
    assert longer[..|commands|] == commands && longer[|commands|] == c;
    if LedTo(x, s, commands, status) {
      var i :| 0 <= i < |commands| && LedToAt(x, s, commands, status, i);
      assert longer[..i] == commands[..i] && longer[i] == commands[i];
      assert LedToAt(x, s, longer, status, i);
    }
    var before := Run(x, s, commands);
    if To(c) == status && before.status == From(c) && Entitled(x, before, c) && Timed(before, c) {
      assert LedToAt(x, s, longer, status, |commands|);
    }
  }

  /** Every stage of a session was reached by an entitled command in time: in particular nothing is
      staged or committed at or after the expiry, and only by the owner with the scope for it. */
  lemma {:induction false} StagesWereEarned(x: Syntax, s: State, commands: seq<Command>, status: Status)
    requires s.status == Prepared && 0 < Rank(status)
    ensures var end := Run(x, s, commands);
            end.status == status || Rank(status) < Rank(end.status) ==> LedTo(x, s, commands, status)
    ensures Run(x, s, commands).expiresAt == s.expiresAt && Run(x, s, commands).owner == s.owner
  {
    hide LedTo, Outcome, Step, Entitled, Timed;
    if commands != [] {
      var n := |commands| - 1;
      var before, c := Run(x, s, commands[..n]), commands[n];
      StagesWereEarned(x, s, commands[..n], status);
      OutcomeIff(x, before, c);
      LedToSnoc(x, s, commands[..n], c, status);
      assert commands[..n] + [c] == commands;
    }
  }

  // ----- restoring snapshots

  /** Exactly the snapshots that restoring accepts. */
  predicate Accepted(x: Syntax, s: State)
  {
    && x.idOk(s.session) && x.principalOk(s.owner) && x.digestOk(s.expected) && s.expiresAt != 0
    && (if s.status == Prepared then s.staged == "" && s.quarantine == "" else x.digestOk(s.staged))
    && (if s.status == Quarantined then x.reasonOk(s.quarantine) else s.quarantine == "")
  }

  method Restore(x: Syntax, s: State) returns (session: Session?)
    ensures session != null <==> Accepted(x, s)
    ensures session != null ==> fresh(session) && session.Snapshot() == s && session.syntax == x
  {
    if !x.idOk(s.session) || !x.principalOk(s.owner) || !x.digestOk(s.expected) || s.expiresAt == 0 { return null; }
    if s.status == Prepared {
      if s.staged != "" || s.quarantine != "" { return null; }
    } else if !x.digestOk(s.staged) {
      return null;
    }
    if s.status == Quarantined {
      if !x.reasonOk(s.quarantine) { return null; }
    } else if s.quarantine != "" {
      return null;
    }
    session := new Session(x, s);
  }

  /** Every reachable session with a set expiry restores, unchanged. */
  lemma ReachableRestores(x: Syntax, s: State)
    requires Sensible(x) && Reachable(x, s)
    ensures Accepted(x, s) <==> s.expiresAt != 0
  {
    hide Reachable;
    ReachableIffGood(x, s);
  }

  /** A restored session is a reachable one exactly when its staged digest, if any, is the expected one. */
  lemma RestoredIsReachable(x: Syntax, s: State)
    requires Sensible(x) && Accepted(x, s)
    ensures Reachable(x, s) <==> (s.staged == "" || s.staged == s.expected)
  {
    hide Reachable;
    ReachableIffGood(x, s);
  }

  /** Restoring does not compare the digests: another digest comes back as published. */
  lemma RestoreTrustsTheDigest(x: Syntax, session: string, owner: string, expected: string, other: string)
    requires Sensible(x) && x.idOk(session) && x.principalOk(owner) && x.digestOk(expected) && x.digestOk(other) && other != expected
    ensures var s := State(session, owner, expected, other, 1, Published, ""); Accepted(x, s) && !Reachable(x, s)
  {
    hide Reachable;
    ReachableIffGood(x, State(session, owner, expected, other, 1, Published, ""));
  }
}
