/**
 Planning and denominators (internal/planner/planner.go): which scenarios an
 intent authorizes, how capability facts dispose of them, and the digests that
 fix the two denominators.  Digests are an arbitrary function of a sorted list.
 */
module Planner {
  import opened Common
  import Sorting
  import Executor

  // ----- byte order on strings

  predicate StringLe(a: string, b: string)
  {
    a == [] || (b != [] && (a[0] < b[0] || (a[0] == b[0] && StringLe(a[1..], b[1..]))))
  }

  lemma {:induction false} StringLeTotal(a: string, b: string)
    ensures StringLe(a, b) || StringLe(b, a)
    ensures StringLe(a, b) && StringLe(b, a) ==> a == b
  {
    if a != [] && b != [] && a[0] == b[0] {
      StringLeTotal(a[1..], b[1..]);
      assert a == [a[0]] + a[1..] && b == [b[0]] + b[1..];
    }
  }

  lemma {:induction false} StringLeTransitive(a: string, b: string, c: string)
    requires StringLe(a, b) && StringLe(b, c)
    ensures StringLe(a, c)
  {
    if a != [] && a[0] == b[0] == c[0] {
      StringLeTransitive(a[1..], b[1..], c[1..]);
    }
  }

  lemma StringLeOrder()
    ensures Sorting.TotalOrder(StringLe)
  {
    forall a, b ensures StringLe(a, b) || StringLe(b, a) { StringLeTotal(a, b); }
    forall a, b | StringLe(a, b) && StringLe(b, a) ensures a == b { StringLeTotal(a, b); }
    forall a, b, c | StringLe(a, b) && StringLe(b, c) ensures StringLe(a, c) { StringLeTransitive(a, b, c); }
  }

  function SortStrings(s: seq<string>): (r: seq<string>)
    ensures multiset(r) == multiset(s)
  {
    Sorting.Sort(s, StringLe)
  }

  // ----- intents

  datatype Candidate = Candidate(id: string, capabilities: seq<string>, dependsOn: seq<string>)

  datatype Branch = Branch(capability: string, scenarios: seq<string>)

  datatype Intent = Intent(candidateDenominator: string, branches: seq<Branch>)

  type Digest = seq<string> -> string

  datatype IntentError = NoScenarios | EmptyScenarioId | DuplicateScenario(id: string)

  function CandidateIds(candidates: seq<Candidate>): (ids: seq<string>)
    ensures |ids| == |candidates|
  {
    seq(|candidates|, i requires 0 <= i < |candidates| => candidates[i].id)
  }

  /** Some candidate with this ID lists the capability. */
  ghost predicate Lists(candidates: seq<Candidate>, capability: string, id: string)
  {
    exists i :: 0 <= i < |candidates| && candidates[i].id == id && capability in candidates[i].capabilities
  }

  /** The branch table: each capability's scenarios. */
  function BranchTable(candidates: seq<Candidate>): map<string, seq<string>>
  {
    if candidates == [] then map[]
    else
      var n := |candidates| - 1;
      AddBranches(BranchTable(candidates[..n]), candidates[n].id, candidates[n].capabilities)
  }

  function AddBranches(table: map<string, seq<string>>, id: string, capabilities: seq<string>): map<string, seq<string>>
  {
    if capabilities == [] then table
    else
      var n := |capabilities| - 1;
      var before := AddBranches(table, id, capabilities[..n]);
      var capability := capabilities[n];
      before[capability := (if capability in before then before[capability] else []) + [id]]
  }

  predicate InTable(table: map<string, seq<string>>, capability: string, id: string)
  {
    capability in table && id in table[capability]
  }

  lemma {:induction false} AddBranchesListing(table: map<string, seq<string>>, id: string, capabilities: seq<string>, capability: string, other: string)
    ensures InTable(AddBranches(table, id, capabilities), capability, other) <==>
            InTable(table, capability, other) || (other == id && capability in capabilities)
  {
    if capabilities != [] {
      var n := |capabilities| - 1;
      AddBranchesListing(table, id, capabilities[..n], capability, other);
      assert capabilities == capabilities[..n] + [capabilities[n]];
    }
  }

  lemma {:induction false} BranchTableListing(candidates: seq<Candidate>, capability: string, id: string)
    ensures InTable(BranchTable(candidates), capability, id) <==> Lists(candidates, capability, id)
  {
    if candidates != [] {
      var n := |candidates| - 1;
      var c := candidates[n];
      BranchTableListing(candidates[..n], capability, id);
      AddBranchesListing(BranchTable(candidates[..n]), c.id, c.capabilities, capability, id);
      assert forall i :: 0 <= i < n ==> candidates[..n][i] == candidates[i];
      if Lists(candidates, capability, id) && !(c.id == id && capability in c.capabilities) {
        var i :| 0 <= i < |candidates| && candidates[i].id == id && capability in candidates[i].capabilities;
        assert candidates[..n][i] == candidates[i];
      }
    }
  }

  // ----- capability facts

  datatype CapabilityStatus = Supported | Unsupported | UnknownCapability

  datatype Observation = Observation(boundHere: bool, facts: seq<(string, CapabilityStatus)>)

  datatype FactError = ForeignObservation | ConflictingFacts(capability: string)

  /** The disposition a capability list earns, whatever its order. */
  function DispositionOf(capabilities: seq<string>, facts: map<string, CapabilityStatus>): Executor.Disposition
  {
    if exists c :: c in capabilities && c in facts && facts[c] == Unsupported then Executor.NotApplicable
    else if exists c :: c in capabilities && (c !in facts || facts[c] == UnknownCapability) then Executor.Skip
    else Executor.Execute
  }

  function ReasonOf(d: Executor.Disposition): string
  {
    match d
    case NotApplicable => "unsupported_capability"
    case Skip => "not_observed"
    case Execute => ""
  }

  /** Reordering or repeating capabilities never changes a disposition. */
  lemma DispositionIgnoresOrder(a: seq<string>, b: seq<string>, facts: map<string, CapabilityStatus>)
    requires forall c :: c in a <==> c in b
    ensures DispositionOf(a, facts) == DispositionOf(b, facts)
  {
  }

  /** A scenario is executed exactly when every capability is known to be supported, and does not apply exactly when one
      is known not to be; the reason code says which. */
  lemma DispositionMeans(capabilities: seq<string>, facts: map<string, CapabilityStatus>)
    ensures var d := DispositionOf(capabilities, facts);
            && (d == Executor.Execute <==> forall c :: c in capabilities ==> c in facts && facts[c] == Supported)
            && (d == Executor.NotApplicable <==> exists c :: c in capabilities && c in facts && facts[c] == Unsupported)
            && (ReasonOf(d) == "unsupported_capability" <==> d == Executor.NotApplicable)
            && (ReasonOf(d) == "not_observed" <==> d == Executor.Skip) && (ReasonOf(d) == "" <==> d == Executor.Execute)
  {
  }

  // ----- building the intent

  ghost predicate Admissible(candidates: seq<Candidate>)
  {
    && candidates != []
    && (forall i :: 0 <= i < |candidates| ==> candidates[i].id != "")
    && Distinct(CandidateIds(candidates))
  }

  /** The intent authorizes exactly what the candidates list. */
  ghost predicate Authorizes(intent: Intent, candidates: seq<Candidate>)
  {
    && (forall i, j :: 0 <= i < j < |intent.branches| ==> intent.branches[i].capability != intent.branches[j].capability)
    && (forall i, id :: 0 <= i < |intent.branches| ==>
          (id in intent.branches[i].scenarios <==> Lists(candidates, intent.branches[i].capability, id)))
    && (forall capability, id :: Lists(candidates, capability, id) ==>
          exists i :: 0 <= i < |intent.branches| && intent.branches[i].capability == capability)
  }

  method CheckCandidates(candidates: seq<Candidate>) returns (error: Option<IntentError>, ids: seq<string>, table: map<string, seq<string>>)
    ensures error.None? <==> Admissible(candidates)
    ensures error.None? ==> ids == CandidateIds(candidates) && table == BranchTable(candidates)
  {
    hide AddBranches;
    ids, table := [], map[];
    if |candidates| == 0 { return Some(NoScenarios), ids, table; }
    var seen: set<string> := {};
    for i := 0 to |candidates|
      invariant ids == CandidateIds(candidates)[..i] && table == BranchTable(candidates[..i])
      invariant (forall id :: id in seen <==> id in ids) && Distinct(ids)
      invariant forall j :: 0 <= j < i ==> candidates[j].id != ""
    {
      var c := candidates[i];
      if c.id == "" { return Some(EmptyScenarioId), ids, table; }
      if c.id in seen {
        var j :| 0 <= j < i && ids[j] == c.id;
        assert CandidateIds(candidates)[j] == CandidateIds(candidates)[i];
        return Some(DuplicateScenario(c.id)), ids, table;
      }
      seen := seen + {c.id};
      ids := ids + [c.id];
      assert candidates[..i + 1][..i] == candidates[..i];
      table := AddBranches(table, c.id, c.capabilities);
    }
    assert candidates[..|candidates|] == candidates;
    error := None;
  }

  /** The branches of a table, capabilities and scenarios sorted. */
  function BranchList(table: map<string, seq<string>>, names: seq<string>): (branches: seq<Branch>)
    requires forall i :: 0 <= i < |names| ==> names[i] in table
    ensures |branches| == |names|
  {
    seq(|names|, i requires 0 <= i < |names| => Branch(names[i], SortStrings(table[names[i]])))
  }

  /** The ascending listing of a finite set of strings. */
  function SortedKeys(keys: set<string>): (names: seq<string>)
    ensures forall k :: k in names <==> k in keys
    ensures Distinct(names)
  {
    if keys == {} then []
    else
      LeastString(keys);
      var first :| first in keys && forall k :: k in keys ==> StringLe(first, k);
      var rest := SortedKeys(keys - {first});
      assert forall i :: 0 <= i < |rest| ==> rest[i] in keys - {first};
      [first] + rest
  }

  lemma {:induction false} FindLeastString(keys: set<string>) returns (m: string)
    requires keys != {}
    ensures m in keys && forall k :: k in keys ==> StringLe(m, k)
    decreases |keys|
  {
    m := Sorting.Pick(keys);
    if keys - {m} == {} {
      assert keys == {m};
      StringLeTotal(m, m);
    } else {
      var other := FindLeastString(keys - {m});
      StringLeTotal(m, other);
      StringLeTotal(m, m);
      var picked := m;
      if !StringLe(m, other) { m := other; }
      forall k | k in keys ensures StringLe(m, k) {
        if k != picked { assert k in keys - {picked}; StringLeLeast(m, other, k); }
      }
    }
  }

  lemma StringLeLeast(m: string, other: string, k: string)
    requires (m == other || StringLe(m, other)) && StringLe(other, k)
    ensures StringLe(m, k)
  {
    if m != other { StringLeTransitive(m, other, k); }
  }

  lemma LeastString(keys: set<string>)
    requires keys != {}
    ensures exists m :: m in keys && forall k :: k in keys ==> StringLe(m, k)
    ensures forall m, n :: m in keys && n in keys && (forall k :: k in keys ==> StringLe(m, k)) && (forall k :: k in keys ==> StringLe(n, k)) ==> m == n
  {
    var m := FindLeastString(keys);
    forall a, b | a in keys && b in keys && (forall k :: k in keys ==> StringLe(a, k)) && (forall k :: k in keys ==> StringLe(b, k))
      ensures a == b
    {
      StringLeTotal(a, b);
    }
  }

  lemma SortedMember(s: seq<string>, x: string)
    ensures x in SortStrings(s) <==> x in s
  {
    assert x in SortStrings(s) <==> x in multiset(SortStrings(s));
    assert x in s <==> x in multiset(s);
  }

  lemma BranchListAuthorizes(candidates: seq<Candidate>, denominator: string, names: seq<string>)
    requires var table := BranchTable(candidates); (forall k :: k in names <==> k in table) && Distinct(names)
    requires forall i :: 0 <= i < |names| ==> names[i] in BranchTable(candidates)
    ensures Authorizes(Intent(denominator, BranchList(BranchTable(candidates), names)), candidates)
  {
    hide BranchTable, SortStrings, Lists;
    var table := BranchTable(candidates);
    var branches := BranchList(table, names);
    forall i, id | 0 <= i < |branches| ensures id in branches[i].scenarios <==> Lists(candidates, branches[i].capability, id) {
      SortedMember(table[names[i]], id);
      BranchTableListing(candidates, names[i], id);
    }
    forall capability, id | Lists(candidates, capability, id)
      ensures exists i :: 0 <= i < |branches| && branches[i].capability == capability
    {
      BranchTableListing(candidates, capability, id);
      assert capability in names;
      var i :| 0 <= i < |names| && names[i] == capability;
      assert branches[i].capability == capability;
    }
  }

  method BuildIntent(candidates: seq<Candidate>, digest: Digest) returns (r: Result<Intent, IntentError>)
    ensures r.Ok? <==> Admissible(candidates)
    ensures r.Ok? ==> r.value.candidateDenominator == digest(SortStrings(CandidateIds(candidates))) && Authorizes(r.value, candidates)
  {
    hide Admissible, Authorizes, BranchTable, SortStrings;
    var error, ids, table := CheckCandidates(candidates);
    if error.Some? { return Err(error.value); }
    var names := SortedKeys(table.Keys);
    assert forall i :: 0 <= i < |names| ==> names[i] in names;
    BranchListAuthorizes(candidates, digest(SortStrings(ids)), names);
    r := Ok(Intent(digest(SortStrings(ids)), BranchList(table, names)));
  }

  // ----- resolving it

  ghost predicate Consistent(facts: map<string, CapabilityStatus>, observations: seq<Observation>)
  {
    forall i, k :: 0 <= i < |observations| && 0 <= k < |observations[i].facts| ==>
      var (capability, status) := observations[i].facts[k]; capability in facts && facts[capability] == status
  }

  /** Exactly the observed facts: the least table that agrees with every observation. */
  ghost predicate Collects(facts: map<string, CapabilityStatus>, observations: seq<Observation>)
  {
    && Consistent(facts, observations)
    && forall other :: Consistent(other, observations) ==> forall c :: c in facts ==> c in other && other[c] == facts[c]
  }

  /** Every observation belongs here and no two contradict each other. */
  ghost predicate Usable(observations: seq<Observation>)
  {
    (forall i :: 0 <= i < |observations| ==> observations[i].boundHere) && exists facts :: Consistent(facts, observations)
  }

  method CollectFacts(observations: seq<Observation>) returns (r: Result<map<string, CapabilityStatus>, FactError>)
    ensures r.Ok? <==> Usable(observations)
    ensures r.Ok? ==> Collects(r.value, observations)
  {
    var facts: map<string, CapabilityStatus> := map[];
    for i := 0 to |observations|
      invariant forall j :: 0 <= j < i ==> observations[j].boundHere
      invariant Consistent(facts, observations[..i])
      invariant forall other :: Consistent(other, observations) ==> forall c :: c in facts ==> c in other && other[c] == facts[c]
    {
      if !observations[i].boundHere { return Err(ForeignObservation); }
      var here := observations[i].facts;
      for k := 0 to |here|
        invariant Consistent(facts, observations[..i])
        invariant forall m :: 0 <= m < k ==> here[m].0 in facts && facts[here[m].0] == here[m].1
        invariant forall other :: Consistent(other, observations) ==> forall c :: c in facts ==> c in other && other[c] == facts[c]
      {
        var (capability, status) := here[k];
        assert forall other :: Consistent(other, observations) ==> capability in other && other[capability] == status;
        if capability in facts && facts[capability] != status { return Err(ConflictingFacts(capability)); }
        facts := facts[capability := status];
      }
    }
    assert observations[..|observations|] == observations;
    r := Ok(facts);
  }

  /** The running disposition of the capability loop. */
  method Dispose(candidate: Candidate, facts: map<string, CapabilityStatus>, allowed: map<string, set<string>>)
    returns (r: Result<Executor.Decision, string>)
    ensures r.Ok? <==> forall c :: c in candidate.capabilities ==> c in allowed && candidate.id in allowed[c]
    ensures r.Ok? ==>
              var d := DispositionOf(candidate.capabilities, facts);
              r.value == Executor.Decision(candidate.id, d, ReasonOf(d), candidate.dependsOn)
  {
    var disposition, reason := Executor.Execute, "";
    var caps := candidate.capabilities;
    for i := 0 to |caps|
      invariant disposition == DispositionOf(caps[..i], facts) && reason == ReasonOf(disposition)
      invariant forall c :: c in caps[..i] ==> c in allowed && candidate.id in allowed[c]
    {
      var c := caps[i];
      assert caps[..i + 1] == caps[..i] + [c];
      if !(c in allowed && candidate.id in allowed[c]) { return Err(c); }
      DispositionSnoc(caps[..i], c, facts);
      if c in facts && facts[c] == Unsupported {
        disposition, reason := Executor.NotApplicable, "unsupported_capability";
      } else if (c !in facts || facts[c] == UnknownCapability) && disposition == Executor.Execute {
        disposition, reason := Executor.Skip, "not_observed";
      }
    }
    assert caps[..|caps|] == caps;
    r := Ok(Executor.Decision(candidate.id, disposition, reason, candidate.dependsOn));
  }

  lemma DispositionSnoc(caps: seq<string>, c: string, facts: map<string, CapabilityStatus>)
    ensures DispositionOf(caps + [c], facts) ==
            if c in facts && facts[c] == Unsupported then Executor.NotApplicable
            else if (c !in facts || facts[c] == UnknownCapability) && DispositionOf(caps, facts) == Executor.Execute then Executor.Skip
            else DispositionOf(caps, facts)
  {
    assert forall x :: x in caps + [c] <==> x in caps || x == c;
    assert c in caps + [c];
  }

  method AllowedBranches(intent: Intent) returns (allowed: map<string, set<string>>)
    ensures forall candidates :: Authorizes(intent, candidates) ==>
              forall capability, id :: (capability in allowed && id in allowed[capability]) <==> Lists(candidates, capability, id)
  {
    allowed := map[];
    for i := 0 to |intent.branches|
      invariant forall j :: 0 <= j < i ==> intent.branches[j].capability in allowed
      invariant forall c :: c in allowed ==> exists j :: 0 <= j < i && intent.branches[j].capability == c &&
                                                        allowed[c] == set id | id in intent.branches[j].scenarios
    {
      var branch := intent.branches[i];
      allowed := allowed[branch.capability := set id | id in branch.scenarios];
    }
    forall candidates, capability, id | Authorizes(intent, candidates)
      ensures (capability in allowed && id in allowed[capability]) <==> Lists(candidates, capability, id)
    {
      if capability in allowed {
        var j :| 0 <= j < |intent.branches| && intent.branches[j].capability == capability &&
                 allowed[capability] == set id | id in intent.branches[j].scenarios;
      }
    }
  }

  function ApplicableIds(decisions: seq<Executor.Decision>): seq<string>
  {
    if decisions == [] then []
    else
      var n := |decisions| - 1;
      ApplicableIds(decisions[..n]) +
      if decisions[n].disposition != Executor.NotApplicable then [decisions[n].id] else []
  }

  datatype Resolved = Resolved(decisions: seq<Executor.Decision>, denominator: string)

  datatype ResolveError = BadFacts(error: FactError) | Unauthorized(id: string, capability: string)

  /** Decision i answers candidate i, with the disposition its capabilities earn. */
  ghost predicate Decides(decisions: seq<Executor.Decision>, candidates: seq<Candidate>, facts: map<string, CapabilityStatus>)
  {
    && |decisions| == |candidates|
    && forall i :: 0 <= i < |candidates| ==>
         var d := DispositionOf(candidates[i].capabilities, facts);
         decisions[i] == Executor.Decision(candidates[i].id, d, ReasonOf(d), candidates[i].dependsOn)
  }

  /** The first candidates use only branches that the planned ones list. */
  ghost predicate AllPlanned(candidates: seq<Candidate>, n: nat, planned: seq<Candidate>)
    requires n <= |candidates|
  {
    forall i, c :: 0 <= i < n && c in candidates[i].capabilities ==> Lists(planned, c, candidates[i].id)
  }

  /** `planned` are candidates that the intent may have been built from. */
  method Resolve(intent: Intent, candidates: seq<Candidate>, observations: seq<Observation>, digest: Digest, ghost planned: seq<Candidate>)
    returns (r: Result<Resolved, ResolveError>, ghost facts: map<string, CapabilityStatus>)
    ensures r.Ok? ==>
              && Collects(facts, observations)
              && Decides(r.value.decisions, candidates, facts)
              && r.value.denominator == digest(SortStrings(ApplicableIds(r.value.decisions)))
    ensures Authorizes(intent, planned) ==>
              (r.Ok? <==> Usable(observations) && AllPlanned(candidates, |candidates|, planned))
    ensures r.Err? ==> (r.error.BadFacts? <==> !Usable(observations))
    ensures r.Err? && Authorizes(intent, planned) && candidates == planned ==> r.error.BadFacts?
  {
    hide Authorizes, SortStrings, DispositionOf, ReasonOf, Consistent, Collects, Decides, ApplicableIds;
    var allowed := AllowedBranches(intent);
    var collected := CollectFacts(observations);
    if collected.Err? { return Err(BadFacts(collected.error)), map[]; }
    facts := collected.value;
    NothingDecided(facts);
    var decisions: seq<Executor.Decision> := [];
    var applicable: seq<string> := [];
    for i := 0 to |candidates|
      invariant Decides(decisions, candidates[..i], facts) && applicable == ApplicableIds(decisions)
      invariant Authorizes(intent, planned) ==> AllPlanned(candidates, i, planned)
    {
      var one := Dispose(candidates[i], collected.value, allowed);
      if one.Err? {
        if Authorizes(intent, planned) && candidates == planned { AllListed(candidates, i, allowed); }
        if Authorizes(intent, planned) { Unplanned(candidates, i, planned, allowed); }
        return Err(Unauthorized(candidates[i].id, one.error)), facts;
      }
      DecidesSnoc(decisions, candidates[..i], facts, one.value, candidates[i]);
      assert candidates[..i + 1] == candidates[..i] + [candidates[i]];
      if one.value.disposition != Executor.NotApplicable { applicable := applicable + [one.value.id]; }
      decisions := decisions + [one.value];
    }
    assert candidates[..|candidates|] == candidates;
    r := Ok(Resolved(decisions, digest(SortStrings(applicable))));
  }

  lemma NothingDecided(facts: map<string, CapabilityStatus>)
    ensures Decides([], [], facts) && ApplicableIds([]) == []
  {
  }

  lemma DecidesSnoc(decisions: seq<Executor.Decision>, candidates: seq<Candidate>, facts: map<string, CapabilityStatus>,
                    decision: Executor.Decision, candidate: Candidate)
    requires Decides(decisions, candidates, facts)
    requires var d := DispositionOf(candidate.capabilities, facts);
             decision == Executor.Decision(candidate.id, d, ReasonOf(d), candidate.dependsOn)
    ensures Decides(decisions + [decision], candidates + [candidate], facts)
    ensures ApplicableIds(decisions + [decision]) ==
            ApplicableIds(decisions) + if decision.disposition != Executor.NotApplicable then [decision.id] else []
  {
    hide DispositionOf, ReasonOf;
    assert (decisions + [decision])[..|decisions|] == decisions;
  }

  lemma Unplanned(candidates: seq<Candidate>, i: nat, planned: seq<Candidate>, allowed: map<string, set<string>>)
    requires i < |candidates|
    requires forall capability, id :: (capability in allowed && id in allowed[capability]) <==> Lists(planned, capability, id)
    requires !(forall c :: c in candidates[i].capabilities ==> c in allowed && candidates[i].id in allowed[c])
    ensures !AllPlanned(candidates, |candidates|, planned)
  {
    hide Lists;
    var c :| c in candidates[i].capabilities && !(c in allowed && candidates[i].id in allowed[c]);
    assert !Lists(planned, c, candidates[i].id);
  }

  lemma AllListed(candidates: seq<Candidate>, i: nat, allowed: map<string, set<string>>)
    requires i < |candidates|
    requires forall capability, id :: (capability in allowed && id in allowed[capability]) <==> Lists(candidates, capability, id)
    ensures forall c :: c in candidates[i].capabilities ==> c in allowed && candidates[i].id in allowed[c]
  {
    forall c | c in candidates[i].capabilities ensures c in allowed && candidates[i].id in allowed[c] {
      assert Lists(candidates, c, candidates[i].id);
    }
  }
}
