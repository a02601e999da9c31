/**
 The grammar of accepted lifecycles, stated over the trace alone, and the proof
 that the machine of module Lifecycle accepts exactly the traces it describes.
 */
module LifecycleGrammar {
  import opened Common
  import opened Lifecycle

  // ----- what a history says

  /** Some event of this type names the item. */
  ghost predicate Mentions(h: seq<Event>, kind: Kind, itemId: string)
  {
    exists i :: 0 <= i < |h| && h[i].kind == kind && h[i].itemId == itemId
  }

  ghost predicate Occurs(h: seq<Event>, kind: Kind)
  {
    exists i :: 0 <= i < |h| && h[i].kind == kind
  }

  /** A function call with this call ID has been added. */
  ghost predicate Calls(h: seq<Event>, callId: string)
  {
    exists i :: 0 <= i < |h| && AddsCall(h[i], callId)
  }

  predicate AddsCall(e: Event, callId: string)
  {
    e.kind == ItemAdded && IsFunctionCall(e.itemKind) && e.callId == callId
  }

  ghost predicate Answered(h: seq<Event>, callId: string)
  {
    exists i :: 0 <= i < |h| && h[i].kind == ToolResult && h[i].callId == callId
  }

  ghost predicate UsesIndex(h: seq<Event>, index: int)
  {
    exists i :: 0 <= i < |h| && h[i].kind == ItemAdded && h[i].outputIndex == index
  }

  /** The argument deltas of an item, concatenated in order. */
  function Deltas(h: seq<Event>, itemId: string): string
  {
    if h == [] then ""
    else
      var n := |h| - 1;
      Deltas(h[..n], itemId) +
      if h[n].kind == ArgumentsDelta && h[n].itemId == itemId then h[n].delta else ""
  }

  // ----- the rules, one event type at a time

  ghost predicate FreshItem(h: seq<Event>, e: Event)
  {
    && e.itemId != "" && e.itemKind != "" && e.outputIndex >= 0
    && !Mentions(h, ItemAdded, e.itemId)
    && !UsesIndex(h, e.outputIndex)
    && if IsFunctionCall(e.itemKind) then e.callId != "" && !Calls(h, e.callId) else e.callId == ""
  }

  /** The event speaks of an added item that is not closed, and does not change its call ID. */
  ghost predicate OpenItem(h: seq<Event>, e: Event)
  {
    && !Mentions(h, ItemDone, e.itemId)
    && exists i :: 0 <= i < |h| && h[i].kind == ItemAdded && h[i].itemId == e.itemId && SameCall(e, h[i])
  }

  predicate SameCall(e: Event, added: Event) { e.callId == "" || e.callId == added.callId }

  ghost predicate FunctionItem(h: seq<Event>, itemId: string)
  {
    exists i :: 0 <= i < |h| && h[i].kind == ItemAdded && h[i].itemId == itemId && IsFunctionCall(h[i].itemKind)
  }

  ghost predicate ClosedCall(h: seq<Event>, callId: string)
  {
    exists i :: 0 <= i < |h| && AddsCall(h[i], callId) && Mentions(h, ItemDone, h[i].itemId)
  }

  ghost predicate AllClosed(h: seq<Event>)
  {
    forall i :: 0 <= i < |h| && h[i].kind == ItemAdded ==> Mentions(h, ItemDone, h[i].itemId)
  }

  /** `e` may follow the history `h` of an active response. */
  ghost predicate Fits(h: seq<Event>, e: Event)
  {
    match e.kind
    case Created => false
    case InProgress => !Occurs(h, InProgress) && !Occurs(h, ItemAdded)
    case ItemAdded => FreshItem(h, e)
    case ArgumentsDelta => OpenItem(h, e) && FunctionItem(h, e.itemId) && !Mentions(h, ArgumentsDone, e.itemId)
    case ArgumentsDone =>
      && OpenItem(h, e) && FunctionItem(h, e.itemId) && !Mentions(h, ArgumentsDone, e.itemId)
      && e.arguments == Deltas(h, e.itemId)
    case ItemDone => OpenItem(h, e) && (FunctionItem(h, e.itemId) ==> Mentions(h, ArgumentsDone, e.itemId))
    case ToolResult => ClosedCall(h, e.callId) && !Answered(h, e.callId)
    case Completed => AllClosed(h)
    case Failed => true
    case Incomplete => true
    case Unknown(_) => false
  }

  /**
   The grammar: events are numbered from 1; response.created comes first and
   only first; exactly one terminal event, and it comes last; every event in
   between fits the events before it.
   */
  ghost predicate Grammatical(trace: seq<Event>)
  {
    && trace != []
    && (forall i :: 0 <= i < |trace| ==> trace[i].sequence == i + 1)
    && (forall i :: 0 <= i < |trace| ==> (trace[i].kind == Created <==> i == 0))
    && (forall i :: 0 <= i < |trace| ==> (IsTerminal(trace[i].kind) <==> i == |trace| - 1))
    && (forall i :: 0 < i < |trace| ==> Fits(trace[..i], trace[i]))
  }

  // ----- what the machine remembers of an accepted history

  ghost predicate ItemsRemembered(s: State, h: seq<Event>)
  {
    && (forall id :: id in s.items <==> Mentions(h, ItemAdded, id))
    && (forall i :: 0 <= i < |h| && h[i].kind == ItemAdded ==>
          h[i].itemId in s.items && s.items[h[i].itemId] == ItemOf(h, h[i]))
    && (forall id :: id !in s.items ==> Untouched(h, id))
  }

  /** No event has worked on the item. */
  ghost predicate Untouched(h: seq<Event>, itemId: string)
  {
    Deltas(h, itemId) == "" && !Mentions(h, ArgumentsDone, itemId) && !Mentions(h, ItemDone, itemId)
  }

  ghost function ItemOf(h: seq<Event>, added: Event): Item
  {
    Item(added.itemKind, added.callId, Deltas(h, added.itemId),
         Mentions(h, ArgumentsDone, added.itemId), Mentions(h, ItemDone, added.itemId))
  }

  ghost predicate CallsRemembered(s: State, h: seq<Event>)
  {
    && (forall call :: call in s.calls <==> Calls(h, call))
    && (forall i :: 0 <= i < |h| && AddsCall(h[i], h[i].callId) ==>
          h[i].callId in s.calls && s.calls[h[i].callId] == h[i].itemId)
  }

  ghost predicate IndexesRemembered(s: State, h: seq<Event>)
  {
    && (forall index :: index in s.indexes <==> UsesIndex(h, index))
    && (forall i :: 0 <= i < |h| && h[i].kind == ItemAdded ==>
          h[i].outputIndex in s.indexes && s.indexes[h[i].outputIndex] == h[i].itemId)
  }

  ghost predicate Remembers(s: State, h: seq<Event>)
  {
    && s.nextSequence == |h| + 1
    && (s.created <==> Occurs(h, Created))
    && (s.inProgress <==> Occurs(h, InProgress))
    && (s.terminal.Some? <==> Ended(h))
    && ItemsRemembered(s, h)
    && IndexesRemembered(s, h)
    && CallsRemembered(s, h)
    && (forall call :: call in s.toolResults <==> Answered(h, call))
  }

  // ----- history facts after one more event

  lemma MentionsSnoc(h: seq<Event>, e: Event, kind: Kind, itemId: string)
    ensures Mentions(h + [e], kind, itemId) <==> Mentions(h, kind, itemId) || (e.kind == kind && e.itemId == itemId)
  {
    var g := h + [e];
    if Mentions(h, kind, itemId) {
      var i :| 0 <= i < |h| && h[i].kind == kind && h[i].itemId == itemId;
      assert g[i] == h[i];
    }
    assert g[|h|] == e;
  }

  lemma OccursSnoc(h: seq<Event>, e: Event, kind: Kind)
    ensures Occurs(h + [e], kind) <==> Occurs(h, kind) || e.kind == kind
  {
    var g := h + [e];
    if Occurs(h, kind) {
      var i :| 0 <= i < |h| && h[i].kind == kind;
      assert g[i] == h[i];
    }
    assert g[|h|] == e;
  }

  lemma CallsSnoc(h: seq<Event>, e: Event, callId: string)
    ensures Calls(h + [e], callId) <==> Calls(h, callId) || AddsCall(e, callId)
  {
    var g := h + [e];
    if Calls(h, callId) {
      var i :| 0 <= i < |h| && AddsCall(h[i], callId);
      assert g[i] == h[i];
    }
    assert g[|h|] == e;
  }

  lemma AnsweredSnoc(h: seq<Event>, e: Event, callId: string)
    ensures Answered(h + [e], callId) <==> Answered(h, callId) || (e.kind == ToolResult && e.callId == callId)
  {
    var g := h + [e];
    if Answered(h, callId) {
      var i :| 0 <= i < |h| && h[i].kind == ToolResult && h[i].callId == callId;
      assert g[i] == h[i];
    }
    assert g[|h|] == e;
  }

  lemma UsesIndexSnoc(h: seq<Event>, e: Event, index: int)
    ensures UsesIndex(h + [e], index) <==> UsesIndex(h, index) || (e.kind == ItemAdded && e.outputIndex == index)
  {
    var g := h + [e];
    if UsesIndex(h, index) {
      var i :| 0 <= i < |h| && h[i].kind == ItemAdded && h[i].outputIndex == index;
      assert g[i] == h[i];
    }
    assert g[|h|] == e;
  }

  lemma DeltasSnoc(h: seq<Event>, e: Event, itemId: string)
    ensures Deltas(h + [e], itemId) ==
            Deltas(h, itemId) + if e.kind == ArgumentsDelta && e.itemId == itemId then e.delta else ""
  {
    assert (h + [e])[..|h|] == h;
  }

  lemma ItemOfSnoc(h: seq<Event>, e: Event, added: Event)
    ensures ItemOf(h + [e], added) ==
            var item := ItemOf(h, added);
            if e.itemId != added.itemId then item
            else match e.kind
              case ArgumentsDelta => item.(arguments := item.arguments + e.delta)
              case ArgumentsDone => item.(argumentsDone := true)
              case ItemDone => item.(done := true)
              case _ => item
  {
    MentionsSnoc(h, e, ArgumentsDone, added.itemId);
    MentionsSnoc(h, e, ItemDone, added.itemId);
    DeltasSnoc(h, e, added.itemId);
    assert Deltas(h, added.itemId) + "" == Deltas(h, added.itemId);
  }

  // ----- an event is accepted exactly when it fits

  /** The add event behind an item the machine knows. */
  lemma AddedAs(s: State, h: seq<Event>, itemId: string) returns (i: nat)
    requires ItemsRemembered(s, h) && itemId in s.items
    ensures i < |h| && h[i].kind == ItemAdded && h[i].itemId == itemId && s.items[itemId] == ItemOf(h, h[i])
  {
    assert Mentions(h, ItemAdded, itemId);
    i :| 0 <= i < |h| && h[i].kind == ItemAdded && h[i].itemId == itemId;
  }

  lemma KnownItem(s: State, h: seq<Event>, e: Event)
    requires ItemsRemembered(s, h)
    ensures e.itemId in s.items ==>
              var item := s.items[e.itemId];
              && item.arguments == Deltas(h, e.itemId)
              && (item.argumentsDone <==> Mentions(h, ArgumentsDone, e.itemId))
              && (item.done <==> Mentions(h, ItemDone, e.itemId))
              && (IsFunctionCall(item.kind) <==> FunctionItem(h, e.itemId))
              && (OpenItem(h, e) <==> !item.done && (e.callId == "" || e.callId == item.callId))
    ensures e.itemId !in s.items ==> !OpenItem(h, e) && !FunctionItem(h, e.itemId)
  {
    hide IsFunctionCall;
    if e.itemId in s.items {
      var i := AddedAs(s, h, e.itemId);
      var item := s.items[e.itemId];
      if IsFunctionCall(item.kind) { assert FunctionItem(h, e.itemId); }
      if !item.done && (e.callId == "" || e.callId == item.callId) { assert SameCall(e, h[i]) && OpenItem(h, e); }
    } else {
      assert !Mentions(h, ItemAdded, e.itemId);
    }
  }

  lemma ArgumentsFit(s: State, h: seq<Event>, e: Event)
    requires ItemsRemembered(s, h)
    ensures e.kind == ArgumentsDelta ==> (AddArguments(s, e).Ok? <==> Fits(h, e))
    ensures e.kind == ArgumentsDone ==> (FinishArguments(s, e).Ok? <==> Fits(h, e))
    ensures e.kind == ItemDone ==> (FinishItem(s, e).Ok? <==> Fits(h, e))
  {
    hide IsFunctionCall, OpenItem, FunctionItem, Deltas, ItemsRemembered, Mentions;
    KnownItem(s, h, e);
  }

  lemma AddFits(s: State, h: seq<Event>, e: Event)
    requires Remembers(s, h) && e.kind == ItemAdded
    ensures AddItem(s, e).Ok? <==> Fits(h, e)
  {
    hide IsFunctionCall, ItemOf, Calls, UsesIndex, Mentions;
  }

  /** The item behind a call the machine knows. */
  lemma CallBelongsTo(s: State, h: seq<Event>, callId: string, i: nat)
    requires Remembers(s, h) && i < |h| && AddsCall(h[i], callId)
    ensures callId in s.calls && s.calls[callId] == h[i].itemId && h[i].itemId in s.items
    ensures s.items[h[i].itemId].done <==> Mentions(h, ItemDone, h[i].itemId)
  {
    hide IsFunctionCall, UsesIndex, Answered, Occurs, Untouched, Mentions, Deltas, Calls;
    assert s.items[h[i].itemId] == ItemOf(h, h[i]);
  }

  lemma ToolResultFits(s: State, h: seq<Event>, e: Event)
    requires Remembers(s, h) && e.kind == ToolResult
    ensures AcceptToolResult(s, e).Ok? <==> Fits(h, e)
  {
    hide IsFunctionCall, UsesIndex, Answered, ItemsRemembered, Mentions, Occurs, AddsCall;
    if e.callId in s.calls {
      assert Calls(h, e.callId);
      var i :| 0 <= i < |h| && AddsCall(h[i], e.callId);
      CallBelongsTo(s, h, e.callId, i);
      if ClosedCall(h, e.callId) {
        var j :| 0 <= j < |h| && AddsCall(h[j], e.callId) && Mentions(h, ItemDone, h[j].itemId);
        CallBelongsTo(s, h, e.callId, j);
      }
    } else {
      assert !Calls(h, e.callId);
    }
  }

  lemma TerminalFits(s: State, h: seq<Event>, e: Event)
    requires ItemsRemembered(s, h) && IsTerminal(e.kind)
    ensures FinishResponse(s, e.kind).Ok? <==> Fits(h, e)
  {
    hide IsFunctionCall, FreshItem, OpenItem, FunctionItem, ClosedCall, Answered, Deltas, Untouched, Occurs, Mentions;
    if AllClosed(h) {
      forall id | id in s.items ensures s.items[id].done {
        var i := AddedAs(s, h, id);
      }
    } else {
      var i :| 0 <= i < |h| && h[i].kind == ItemAdded && !Mentions(h, ItemDone, h[i].itemId);
      assert h[i].itemId in s.items && !s.items[h[i].itemId].done;
    }
  }

  lemma InProgressFits(s: State, h: seq<Event>, e: Event)
    requires Remembers(s, h) && e.kind == InProgress
    ensures (!s.inProgress && |s.items| == 0) <==> Fits(h, e)
  {
    hide IsFunctionCall, ItemOf;
    if Occurs(h, ItemAdded) {
      var i :| 0 <= i < |h| && h[i].kind == ItemAdded;
      assert h[i].itemId in s.items;
    }
    if |s.items| != 0 {
      var id :| id in s.items;
      assert Mentions(h, ItemAdded, id);
    }
  }

  lemma EffectIffFits(s: State, h: seq<Event>, e: Event)
    requires Remembers(s, h) && s.created && e.kind != Created
    ensures Effect(s, e).Ok? <==> Fits(h, e)
  {
    hide AddItem, AddArguments, FinishArguments, FinishItem, AcceptToolResult, FinishResponse;
    hide FreshItem, OpenItem, FunctionItem, ClosedCall, AllClosed, Mentions, Occurs, Answered, Deltas, Calls, UsesIndex;
    match e.kind
    case InProgress => InProgressFits(s, h, e);
    case ItemAdded => AddFits(s, h, e);
    case ArgumentsDelta => ArgumentsFit(s, h, e);
    case ArgumentsDone => ArgumentsFit(s, h, e);
    case ItemDone => ArgumentsFit(s, h, e);
    case ToolResult => ToolResultFits(s, h, e);
    case Completed => TerminalFits(s, h, e);
    case Failed => TerminalFits(s, h, e);
    case Incomplete => TerminalFits(s, h, e);
    case Unknown(_) =>
  }

  // ----- the machine keeps remembering

  /** What an accepted event does to the item table. */
  lemma ItemsEffect(s: State, e: Event)
    requires Effect(s, e).Ok?
    ensures var t := Effect(s, e).value;
            if e.kind == ItemAdded then
              e.itemId !in s.items && t.items == s.items[e.itemId := Item(e.itemKind, e.callId, "", false, false)]
            else if e.kind == ArgumentsDelta || e.kind == ArgumentsDone || e.kind == ItemDone then
              e.itemId in s.items &&
              var item := s.items[e.itemId];
              t.items == s.items[e.itemId :=
                if e.kind == ArgumentsDelta then item.(arguments := item.arguments + e.delta)
                else if e.kind == ArgumentsDone then item.(argumentsDone := true)
                else item.(done := true)]
            else t.items == s.items
  {
    hide IsFunctionCall;
  }

  lemma UntouchedSnoc(h: seq<Event>, e: Event, itemId: string)
    requires Untouched(h, itemId)
    requires e.itemId != itemId || !(e.kind == ArgumentsDelta || e.kind == ArgumentsDone || e.kind == ItemDone)
    ensures Untouched(h + [e], itemId)
  {
    MentionsSnoc(h, e, ArgumentsDone, itemId);
    MentionsSnoc(h, e, ItemDone, itemId);
    DeltasSnoc(h, e, itemId);
  }

  lemma ItemsStep(s: State, h: seq<Event>, e: Event)
    requires ItemsRemembered(s, h) && Effect(s, e).Ok?
    ensures ItemsRemembered(Effect(s, e).value, h + [e])
  {
    hide Effect, Mentions, Untouched, ItemOf;
    var t, g := Effect(s, e).value, h + [e];
    ItemsEffect(s, e);
    forall id ensures id in t.items <==> Mentions(g, ItemAdded, id) {
      MentionsSnoc(h, e, ItemAdded, id);
    }
    forall id | id !in t.items ensures Untouched(g, id) {
      assert id !in s.items;
      UntouchedSnoc(h, e, id);
    }
    forall i | 0 <= i < |g| && g[i].kind == ItemAdded
      ensures g[i].itemId in t.items && t.items[g[i].itemId] == ItemOf(g, g[i])
    {
      ItemOfSnoc(h, e, g[i]);
      if i < |h| {
        assert g[i] == h[i];
      } else {
        assert Untouched(h, e.itemId);
        NewItem(h, e);
      }
    }
  }

  lemma NewItem(h: seq<Event>, e: Event)
    requires Untouched(h, e.itemId)
    ensures ItemOf(h, e) == Item(e.itemKind, e.callId, "", false, false)
  {
  }

  lemma CallsEffect(s: State, e: Event)
    requires Effect(s, e).Ok?
    ensures var t := Effect(s, e).value;
            if AddsCall(e, e.callId) then e.callId !in s.calls && t.calls == s.calls[e.callId := e.itemId]
            else t.calls == s.calls
  {
    hide IsFunctionCall;
  }

  lemma CallsStep(s: State, h: seq<Event>, e: Event)
    requires CallsRemembered(s, h) && Effect(s, e).Ok?
    ensures CallsRemembered(Effect(s, e).value, h + [e])
  {
    hide Effect, IsFunctionCall;
    var t, g := Effect(s, e).value, h + [e];
    CallsEffect(s, e);
    forall call ensures call in t.calls <==> Calls(g, call) {
      CallsSnoc(h, e, call);
    }
    forall i | 0 <= i < |g| && AddsCall(g[i], g[i].callId)
      ensures g[i].callId in t.calls && t.calls[g[i].callId] == g[i].itemId
    {
      if i < |h| { assert g[i] == h[i]; }
    }
  }

  /** Flags, indexes and tool results. */
  lemma RestEffect(s: State, e: Event)
    requires Effect(s, e).Ok?
    ensures var t := Effect(s, e).value;
            && t.nextSequence == s.nextSequence
            && (t.created <==> s.created || e.kind == Created)
            && (t.inProgress <==> s.inProgress || e.kind == InProgress)
            && t.terminal == (if IsTerminal(e.kind) then Some(e.kind) else s.terminal)
            && t.indexes == (if e.kind == ItemAdded then s.indexes[e.outputIndex := e.itemId] else s.indexes)
            && t.toolResults == (if e.kind == ToolResult then s.toolResults + {e.callId} else s.toolResults)
  {
    hide IsFunctionCall;
  }

  ghost predicate Ended(h: seq<Event>)
  {
    exists i :: 0 <= i < |h| && IsTerminal(h[i].kind)
  }

  lemma EndedSnoc(h: seq<Event>, e: Event)
    ensures Ended(h + [e]) <==> Ended(h) || IsTerminal(e.kind)
  {
    var g := h + [e];
    if Ended(h) {
      var i :| 0 <= i < |h| && IsTerminal(h[i].kind);
      assert g[i] == h[i];
    }
    assert g[|h|] == e;
  }

  lemma IndexesStep(s: State, h: seq<Event>, e: Event)
    requires IndexesRemembered(s, h) && Effect(s, e).Ok?
    ensures IndexesRemembered(Effect(s, e).value, h + [e])
  {
    hide UsesIndex, AddArguments, FinishArguments, FinishItem, AcceptToolResult, FinishResponse, IsFunctionCall;
    var t, g := Effect(s, e).value, h + [e];
    RestEffect(s, e);
    forall index ensures index in t.indexes <==> UsesIndex(g, index) { UsesIndexSnoc(h, e, index); }
    forall i | 0 <= i < |g| && g[i].kind == ItemAdded
      ensures g[i].outputIndex in t.indexes && t.indexes[g[i].outputIndex] == g[i].itemId
    {
      if i < |h| { assert g[i] == h[i]; }
    }
  }

  lemma RememberStep(s: State, h: seq<Event>, e: Event)
    requires Remembers(s, h) && Transition(s, e).Ok?
    ensures Remembers(Transition(s, e).value, h + [e])
  {
    hide Effect, ItemsRemembered, CallsRemembered, IndexesRemembered, Occurs, Answered, Ended;
    var t := Effect(s, e).value;
    ItemsStep(s, h, e);
    CallsStep(s, h, e);
    IndexesStep(s, h, e);
    SequenceIsSeparate(t, h + [e], t.nextSequence + 1);
    RestEffect(s, e);
    OccursSnoc(h, e, Created);
    OccursSnoc(h, e, InProgress);
    EndedSnoc(h, e);
    forall call ensures call in t.toolResults <==> Answered(h + [e], call) { AnsweredSnoc(h, e, call); }
  }

  lemma SequenceIsSeparate(s: State, h: seq<Event>, n: nat)
    requires ItemsRemembered(s, h) && CallsRemembered(s, h) && IndexesRemembered(s, h)
    ensures var t := s.(nextSequence := n); ItemsRemembered(t, h) && CallsRemembered(t, h) && IndexesRemembered(t, h)
  {
    hide Mentions, Untouched, ItemOf, Calls;
  }

  // ----- whole traces

  lemma {:induction false} RunRemembers(trace: seq<Event>)
    requires Run(trace).Ok?
    ensures Remembers(Run(trace).value, trace)
  {
    if trace == [] {
      assert Remembers(INITIAL, []);
    } else {
      var n := |trace| - 1;
      assert trace == trace[..n] + [trace[n]];
      RunRemembers(trace[..n]);
      RememberStep(Run(trace[..n]).value, trace[..n], trace[n]);
    }
  }

  ghost predicate Legal(h: seq<Event>, e: Event)
  {
    && e.sequence == |h| + 1
    && !Ended(h)
    && if e.kind == Created then !Occurs(h, Created) else Occurs(h, Created) && Fits(h, e)
  }

  lemma TransitionIffLegal(s: State, h: seq<Event>, e: Event)
    requires Remembers(s, h)
    ensures Transition(s, e).Ok? <==> Legal(h, e)
  {
    hide Fits, ItemsRemembered, CallsRemembered, AddItem, AddArguments, FinishArguments, FinishItem, AcceptToolResult, FinishResponse;
    if s.created && e.kind != Created { EffectIffFits(s, h, e); }
  }

  ghost predicate AllLegal(trace: seq<Event>)
  {
    forall i :: 0 <= i < |trace| ==> Legal(trace[..i], trace[i])
  }

  lemma {:induction false} RunIffLegal(trace: seq<Event>)
    ensures Run(trace).Ok? <==> AllLegal(trace)
  {
    hide Legal, Transition, Remembers;
    if trace != [] {
      var n := |trace| - 1;
      var h := trace[..n];
      RunIffLegal(h);
      assert forall i :: 0 <= i < n ==> h[..i] == trace[..i] && h[i] == trace[i];
      if Run(h).Ok? {
        RunRemembers(h);
        TransitionIffLegal(Run(h).value, h, trace[n]);
        if AllLegal(h) && Legal(h, trace[n]) {
          forall i | 0 <= i < |trace| ensures Legal(trace[..i], trace[i]) {
            if i < n { assert Legal(h[..i], h[i]); }
          }
        }
      } else {
        var i :| 0 <= i < n && !Legal(h[..i], h[i]);
        assert !Legal(trace[..i], trace[i]);
      }
    }
  }

  lemma CreatedComesFirst(trace: seq<Event>, i: nat)
    requires AllLegal(trace) && i < |trace|
    ensures trace[0].kind == Created
    ensures i > 0 ==> trace[i].kind != Created && Fits(trace[..i], trace[i])
  {
    hide Fits, Ended;
    assert Legal(trace[..0], trace[0]);
    assert Legal(trace[..i], trace[i]);
    if i > 0 {
      assert trace[..i][0].kind == Created;
      assert Occurs(trace[..i], Created);
    }
  }

  lemma NothingFollowsTerminal(trace: seq<Event>, i: nat)
    requires AllLegal(trace) && i + 1 < |trace|
    ensures !IsTerminal(trace[i].kind)
  {
    hide Fits, Occurs;
    assert Legal(trace[..i + 1], trace[i + 1]);
    assert trace[..i + 1][i] == trace[i];
  }

  lemma LegalIsGrammatical(trace: seq<Event>)
    requires AllLegal(trace) && Ended(trace)
    ensures Grammatical(trace)
  {
    hide Fits, Occurs;
    forall i | 0 <= i < |trace| - 1 ensures !IsTerminal(trace[i].kind) {
      NothingFollowsTerminal(trace, i);
    }
    forall i | 0 <= i < |trace|
      ensures trace[i].kind == Created <==> i == 0
      ensures trace[i].sequence == i + 1
      ensures i > 0 ==> Fits(trace[..i], trace[i])
    {
      CreatedComesFirst(trace, i);
      assert Legal(trace[..i], trace[i]);
    }
  }

  lemma GrammaticalIsLegal(trace: seq<Event>)
    requires Grammatical(trace)
    ensures AllLegal(trace) && Ended(trace)
  {
    hide Fits;
    assert IsTerminal(trace[|trace| - 1].kind);
    forall i | 0 <= i < |trace| ensures Legal(trace[..i], trace[i]) {
      if i > 0 { assert trace[..i][0].kind == Created; }
      assert forall j :: 0 <= j < i ==> trace[..i][j] == trace[j];
    }
  }

  /** The machine accepts exactly the grammatical traces. */
  lemma AcceptedIffGrammatical(trace: seq<Event>)
    ensures Accepted(trace) <==> Grammatical(trace)
  {
    hide Grammatical, AllLegal, Remembers;
    RunIffLegal(trace);
    if Run(trace).Ok? {
      RunRemembers(trace);
      TerminalRemembered(Run(trace).value, trace);
    }
    if AllLegal(trace) && Ended(trace) { LegalIsGrammatical(trace); }
    if Grammatical(trace) { GrammaticalIsLegal(trace); }
  }

  lemma TerminalRemembered(s: State, h: seq<Event>)
    requires Remembers(s, h)
    ensures s.terminal.Some? <==> Ended(h)
  {
  }

  /** In an accepted trace the arguments kept for an item are its deltas, in order. */
  lemma ArgumentsAreDeltas(trace: seq<Event>, itemId: string)
    requires Run(trace).Ok? && itemId in Run(trace).value.items
    ensures Run(trace).value.items[itemId].arguments == Deltas(trace, itemId)
  {
    RunRemembers(trace);
    var i := AddedAs(Run(trace).value, trace, itemId);
  }

  /** Grammatical traces hold exactly one terminal event. */
  lemma {:induction false} CountTerminals(trace: seq<Event>)
    ensures (forall i :: 0 <= i < |trace| ==> !IsTerminal(trace[i].kind)) ==> Terminals(trace) == 0
    ensures Grammatical(trace) ==> Terminals(trace) == 1
  {
    if trace != [] {
      var n := |trace| - 1;
      CountTerminals(trace[..n]);
      if Grammatical(trace) {
        assert forall i :: 0 <= i < n ==> trace[..n][i] == trace[i] && !IsTerminal(trace[i].kind);
      }
    }
  }

  function Terminals(trace: seq<Event>): nat
  {
    if trace == [] then 0
    else Terminals(trace[..|trace| - 1]) + if IsTerminal(trace[|trace| - 1].kind) then 1 else 0
  }
}
