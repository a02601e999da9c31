/**
 Which violation the machine names: every code has a condition on the events so
 far, and the first code in order of precedence whose condition holds is the one
 reported.
 */
module LifecycleViolations {
  import opened Common
  import opened Lifecycle
  import opened LifecycleGrammar

  /** The event works on an item that was added before. */
  predicate Refers(e: Event) { e.kind == ArgumentsDelta || e.kind == ArgumentsDone || e.kind == ItemDone }

  predicate Argues(e: Event) { e.kind == ArgumentsDelta || e.kind == ArgumentsDone }

  /** An item was added under this identifier and call identifier. */
  ghost predicate AddedFor(h: seq<Event>, itemId: string, callId: string)
  {
    exists i :: 0 <= i < |h| && h[i].kind == ItemAdded && h[i].itemId == itemId && h[i].callId == callId
  }

  /** What each code accuses an event of, after the history `h`. */
  ghost predicate Accuses(h: seq<Event>, e: Event, v: Violation)
  {
    match v
    case NonMonotonicSequence => e.sequence != |h| + 1
    case EventAfterTerminal => Ended(h)
    case UnknownSemanticEvent => e.kind.Unknown?
    case DuplicateResponseCreated => e.kind == Created && Occurs(h, Created)
    case EventBeforeResponseCreated => e.kind != Created && !Occurs(h, Created)
    case DuplicateInProgress => e.kind == InProgress && Occurs(h, InProgress)
    case InProgressAfterOutput => e.kind == InProgress && Occurs(h, ItemAdded)
    case InvalidOutputItem => e.kind == ItemAdded && (e.itemId == "" || e.itemKind == "" || e.outputIndex < 0)
    case DuplicateItemId => e.kind == ItemAdded && Mentions(h, ItemAdded, e.itemId)
    case DuplicateOutputIndex => e.kind == ItemAdded && UsesIndex(h, e.outputIndex)
    case MissingCallId => e.kind == ItemAdded && e.itemKind == "function_call" && e.callId == ""
    case DuplicateCallId => e.kind == ItemAdded && e.itemKind == "function_call" && Calls(h, e.callId)
    case CallIdForNonFunctionItem => e.kind == ItemAdded && e.itemKind != "function_call" && e.callId != ""
    case UnknownItemReference => Refers(e) && !Mentions(h, ItemAdded, e.itemId)
    case EventForClosedItem => Argues(e) && Mentions(h, ItemDone, e.itemId)
    case DuplicateOutputItemDone => e.kind == ItemDone && Mentions(h, ItemDone, e.itemId)
    case ArgumentsForNonFunctionItem => Argues(e) && !FunctionItem(h, e.itemId)
    case FunctionItemDoneBeforeArguments =>
      e.kind == ItemDone && FunctionItem(h, e.itemId) && !Mentions(h, ArgumentsDone, e.itemId)
    case CallIdChanged => Refers(e) && e.callId != "" && !AddedFor(h, e.itemId, e.callId)
    case ArgumentsDeltaAfterDone => e.kind == ArgumentsDelta && Mentions(h, ArgumentsDone, e.itemId)
    case DuplicateArgumentsDone => e.kind == ArgumentsDone && Mentions(h, ArgumentsDone, e.itemId)
    case ArgumentsReconstructionMismatch => e.kind == ArgumentsDone && e.arguments != Deltas(h, e.itemId)
    case ToolResultUnknownCall => e.kind == ToolResult && !Calls(h, e.callId)
    case ToolResultBeforeCallDone => e.kind == ToolResult && !ClosedCall(h, e.callId)
    case DuplicateToolResult => e.kind == ToolResult && Answered(h, e.callId)
    case CompletedWithOpenItem => e.kind == Completed && !AllClosed(h)
    case MissingTerminalEvent => false
  }

  /** The order in which codes take precedence. */
  function Rank(v: Violation): nat
  {
    match v
    case NonMonotonicSequence => 0
    case EventAfterTerminal => 1
    case UnknownSemanticEvent => 2
    case DuplicateResponseCreated => 3
    case EventBeforeResponseCreated => 4
    case DuplicateInProgress => 5
    case InProgressAfterOutput => 6
    case InvalidOutputItem => 7
    case DuplicateItemId => 8
    case DuplicateOutputIndex => 9
    case MissingCallId => 10
    case DuplicateCallId => 11
    case CallIdForNonFunctionItem => 12
    case UnknownItemReference => 13
    case EventForClosedItem => 14
    case DuplicateOutputItemDone => 15
    case ArgumentsForNonFunctionItem => 16
    case FunctionItemDoneBeforeArguments => 17
    case CallIdChanged => 18
    case ArgumentsDeltaAfterDone => 19
    case DuplicateArgumentsDone => 20
    case ArgumentsReconstructionMismatch => 21
    case ToolResultUnknownCall => 22
    case ToolResultBeforeCallDone => 23
    case DuplicateToolResult => 24
    case CompletedWithOpenItem => 25
    case MissingTerminalEvent => 26
  }

  /** The code that comes first among those whose condition holds. */
  ghost predicate Names(h: seq<Event>, e: Event, v: Violation)
  {
    Accuses(h, e, v) && forall w :: Rank(w) < Rank(v) ==> !Accuses(h, e, w)
  }

  // ----- one event

  lemma CallIdOf(s: State, h: seq<Event>, e: Event)
    requires ItemsRemembered(s, h) && e.itemId in s.items
    ensures AddedFor(h, e.itemId, e.callId) <==> e.callId == s.items[e.itemId].callId
  {
    hide Mentions, Untouched, Deltas;
    var i := AddedAs(s, h, e.itemId);
    if AddedFor(h, e.itemId, e.callId) {
      var j :| 0 <= j < |h| && h[j].kind == ItemAdded && h[j].itemId == e.itemId && h[j].callId == e.callId;
      assert s.items[e.itemId] == ItemOf(h, h[j]);
    }
  }

  /** What the state knows about the item of an event is what the history says. */
  lemma ItemFacts(s: State, h: seq<Event>, e: Event)
    requires Remembers(s, h)
    ensures e.itemId in s.items <==> Mentions(h, ItemAdded, e.itemId)
    ensures e.itemId in s.items ==>
              var item := s.items[e.itemId];
              && item.arguments == Deltas(h, e.itemId)
              && (item.argumentsDone <==> Mentions(h, ArgumentsDone, e.itemId))
              && (item.done <==> Mentions(h, ItemDone, e.itemId))
              && (item.kind == "function_call" <==> FunctionItem(h, e.itemId))
              && (e.callId == item.callId <==> AddedFor(h, e.itemId, e.callId))
  {
    hide Mentions, Untouched, Deltas, FunctionItem, AddedFor, UsesIndex, Calls, Answered, Occurs, OpenItem;
    KnownItem(s, h, e);
    if e.itemId in s.items { CallIdOf(s, h, e); }
  }

  ghost predicate NamedBy(r: Result<State, Violation>, h: seq<Event>, e: Event)
  {
    r.Err? ==> Names(h, e, r.error)
  }

  lemma NamesAdd(s: State, h: seq<Event>, e: Event)
    requires Remembers(s, h) && e.kind == ItemAdded && e.sequence == |h| + 1 && !Ended(h) && Occurs(h, Created)
    ensures NamedBy(AddItem(s, e), h, e)
  {
    hide Mentions, UsesIndex, Calls, Ended, Occurs, FunctionItem, Deltas, ClosedCall, Answered, AllClosed, AddedFor, Untouched, ItemOf;
  }

  lemma NamesDelta(s: State, h: seq<Event>, e: Event)
    requires Remembers(s, h) && e.kind == ArgumentsDelta && e.sequence == |h| + 1 && !Ended(h) && Occurs(h, Created)
    ensures NamedBy(AddArguments(s, e), h, e)
  {
    hide Mentions, UsesIndex, Calls, Ended, Occurs, FunctionItem, Deltas, ClosedCall, Answered, AllClosed, AddedFor, Remembers;
    ItemFacts(s, h, e);
  }

  lemma NamesArgumentsDone(s: State, h: seq<Event>, e: Event)
    requires Remembers(s, h) && e.kind == ArgumentsDone && e.sequence == |h| + 1 && !Ended(h) && Occurs(h, Created)
    ensures NamedBy(FinishArguments(s, e), h, e)
  {
    hide Mentions, UsesIndex, Calls, Ended, Occurs, FunctionItem, Deltas, ClosedCall, Answered, AllClosed, AddedFor, Remembers;
    ItemFacts(s, h, e);
  }

  lemma NamesItemDone(s: State, h: seq<Event>, e: Event)
    requires Remembers(s, h) && e.kind == ItemDone && e.sequence == |h| + 1 && !Ended(h) && Occurs(h, Created)
    ensures NamedBy(FinishItem(s, e), h, e)
  {
    hide Mentions, UsesIndex, Calls, Ended, Occurs, FunctionItem, Deltas, ClosedCall, Answered, AllClosed, AddedFor, Remembers;
    ItemFacts(s, h, e);
  }

  lemma CallFacts(s: State, h: seq<Event>, e: Event)
    requires Remembers(s, h)
    ensures e.callId in s.calls <==> Calls(h, e.callId)
    ensures e.callId in s.calls ==> s.calls[e.callId] in s.items && (s.items[s.calls[e.callId]].done <==> ClosedCall(h, e.callId))
  {
    hide IsFunctionCall, UsesIndex, Answered, ItemsRemembered, Mentions, Occurs, AddsCall;
    if e.callId in s.calls {
      assert Calls(h, e.callId);
      var i :| 0 <= i < |h| && AddsCall(h[i], e.callId);
      CallBelongsTo(s, h, e.callId, i);
      if ClosedCall(h, e.callId) {
        var j :| 0 <= j < |h| && AddsCall(h[j], e.callId) && Mentions(h, ItemDone, h[j].itemId);
        CallBelongsTo(s, h, e.callId, j);
      }
    }
  }

  lemma NamesToolResult(s: State, h: seq<Event>, e: Event)
    requires Remembers(s, h) && e.kind == ToolResult && e.sequence == |h| + 1 && !Ended(h) && Occurs(h, Created)
    ensures NamedBy(AcceptToolResult(s, e), h, e)
  {
    hide Mentions, UsesIndex, Calls, Ended, Occurs, FunctionItem, Deltas, ClosedCall, Answered, AllClosed, AddedFor;
    hide ItemsRemembered, CallsRemembered, IndexesRemembered;
    CallFacts(s, h, e);
  }

  lemma NamesEnd(s: State, h: seq<Event>, e: Event)
    requires Remembers(s, h) && IsTerminal(e.kind) && e.sequence == |h| + 1 && !Ended(h) && Occurs(h, Created)
    ensures NamedBy(FinishResponse(s, e.kind), h, e)
  {
    hide Mentions, UsesIndex, Calls, Ended, Occurs, FunctionItem, Deltas, ClosedCall, Answered, AllClosed, AddedFor;
    hide CallsRemembered, IndexesRemembered, ItemsRemembered, FreshItem, OpenItem;
    TerminalFits(s, h, e);
  }

  lemma NamesProgress(s: State, h: seq<Event>, e: Event)
    requires Remembers(s, h) && e.kind == InProgress && e.sequence == |h| + 1 && !Ended(h) && Occurs(h, Created)
    ensures s.inProgress ==> Names(h, e, DuplicateInProgress)
    ensures !s.inProgress && |s.items| != 0 ==> Names(h, e, InProgressAfterOutput)
  {
    hide Mentions, UsesIndex, Calls, Ended, Occurs, FunctionItem, Deltas, ClosedCall, Answered, AllClosed, AddedFor;
    hide CallsRemembered, IndexesRemembered, ItemsRemembered, FreshItem, OpenItem;
    InProgressFits(s, h, e);
  }

  lemma NamesEffect(s: State, h: seq<Event>, e: Event)
    requires Remembers(s, h) && e.sequence == |h| + 1 && !Ended(h)
    ensures NamedBy(Effect(s, e), h, e)
  {
    hide Names, AddItem, AddArguments, FinishArguments, FinishItem, AcceptToolResult, FinishResponse;
    hide ItemsRemembered, CallsRemembered, IndexesRemembered, Occurs, Ended, Answered;
    if e.kind.Unknown? || e.kind == Created || !s.created {
      NamesEarly(s, h, e);
    } else {
      match e.kind {
        case InProgress => NamesProgress(s, h, e);
        case ItemAdded => NamesAdd(s, h, e);
        case ArgumentsDelta => NamesDelta(s, h, e);
        case ArgumentsDone => NamesArgumentsDone(s, h, e);
        case ItemDone => NamesItemDone(s, h, e);
        case ToolResult => NamesToolResult(s, h, e);
        case _ => NamesEnd(s, h, e);
      }
    }
  }

  lemma NamesEarly(s: State, h: seq<Event>, e: Event)
    requires Remembers(s, h) && e.sequence == |h| + 1 && !Ended(h)
    ensures e.kind.Unknown? ==> Names(h, e, UnknownSemanticEvent)
    ensures e.kind == Created && s.created ==> Names(h, e, DuplicateResponseCreated)
    ensures !e.kind.Unknown? && e.kind != Created && !s.created ==> Names(h, e, EventBeforeResponseCreated)
  {
    hide ItemsRemembered, CallsRemembered, IndexesRemembered, Occurs, Ended, Answered;
    hide Mentions, UsesIndex, Calls, FunctionItem, Deltas, ClosedCall, AllClosed, AddedFor;
  }

  lemma NamesOrder(s: State, h: seq<Event>, e: Event)
    requires Remembers(s, h)
    ensures e.sequence != |h| + 1 ==> Names(h, e, NonMonotonicSequence)
    ensures e.sequence == |h| + 1 && Ended(h) ==> Names(h, e, EventAfterTerminal)
  {
    hide ItemsRemembered, CallsRemembered, IndexesRemembered, Occurs, Ended, Answered;
    hide Mentions, UsesIndex, Calls, FunctionItem, Deltas, ClosedCall, AllClosed, AddedFor;
  }

  /** The machine reports a code exactly when that code is named by the history. */
  lemma TransitionNames(s: State, h: seq<Event>, e: Event, v: Violation)
    requires Remembers(s, h)
    ensures Transition(s, e) == Err(v) <==> !Legal(h, e) && Names(h, e, v)
  {
    hide Names, Effect, ItemsRemembered, CallsRemembered, IndexesRemembered, Occurs, Ended, Answered, Legal;
    TransitionIffLegal(s, h, e);
    NamesOrder(s, h, e);
    if e.sequence == |h| + 1 && !Ended(h) { NamesEffect(s, h, e); }
    if Transition(s, e).Err? && Names(h, e, v) { OneName(h, e, Transition(s, e).error, v); }
  }

  lemma OneName(h: seq<Event>, e: Event, v: Violation, w: Violation)
    requires Names(h, e, v) && Names(h, e, w)
    ensures v == w
  {
    hide Accuses;
    assert Rank(v) == Rank(w);
    OneRank(v, w);
  }

  lemma OneRank(v: Violation, w: Violation)
    requires Rank(v) == Rank(w)
    ensures v == w
  {
  }

  // ----- whole traces

  /** The first event that is not legal, and the code it earns. */
  ghost predicate FailsAt(trace: seq<Event>, i: nat, v: Violation)
    requires i < |trace|
  {
    AllLegal(trace[..i]) && !Legal(trace[..i], trace[i]) && Names(trace[..i], trace[i], v)
  }

  /** A run fails with a code exactly when its first illegal event earns that code. */
  lemma {:induction false} RunNames(trace: seq<Event>, v: Violation)
    ensures Run(trace) == Err(v) <==> exists i :: 0 <= i < |trace| && FailsAt(trace, i, v)
  {
    hide Legal, Names, Transition, Remembers, FailsAt, AllLegal;
    if trace != [] {
      var n := |trace| - 1;
      RunNames(trace[..n], v);
      forall i | 0 <= i < n ensures FailsAt(trace, i, v) == FailsAt(trace[..n], i, v) { FailsEarlier(trace, n, i, v); }
      RunIffLegal(trace[..n]);
      if Run(trace[..n]).Ok? {
        RunRemembers(trace[..n]);
        TransitionNames(Run(trace[..n]).value, trace[..n], trace[n], v);
        FailsNow(trace, v);
        forall i | 0 <= i < n ensures !FailsAt(trace, i, v) { LegalNeverFails(trace[..n], i, v); }
      } else {
        assert !FailsAt(trace, n, v) by { FailsNow(trace, v); }
        if exists i :: 0 <= i < n && FailsAt(trace[..n], i, v) {
          var i :| 0 <= i < n && FailsAt(trace[..n], i, v);
          assert FailsAt(trace, i, v);
        }
      }
    }
  }

  lemma FailsEarlier(trace: seq<Event>, n: nat, i: nat, v: Violation)
    requires i < n <= |trace|
    ensures FailsAt(trace, i, v) == FailsAt(trace[..n], i, v)
  {
    hide Legal, Names, AllLegal;
    assert trace[..n][..i] == trace[..i] && trace[..n][i] == trace[i];
  }

  lemma FailsNow(trace: seq<Event>, v: Violation)
    requires trace != []
    ensures var n := |trace| - 1;
            FailsAt(trace, n, v) <==> AllLegal(trace[..n]) && !Legal(trace[..n], trace[n]) && Names(trace[..n], trace[n], v)
  {
  }

  lemma LegalNeverFails(h: seq<Event>, i: nat, v: Violation)
    requires i < |h| && AllLegal(h)
    ensures !FailsAt(h, i, v)
  {
    hide Legal, Names;
    assert Legal(h[..i], h[i]);
  }
}
