/**
 The typed response lifecycle (internal/statemachine/response.go): a machine
 that accepts or rejects one semantic event at a time, and the grammar of the
 traces it accepts.
 */
module Lifecycle {
  import opened Common

  datatype Kind =
    | Created
    | InProgress
    | ItemAdded
    | ArgumentsDelta
    | ArgumentsDone
    | ItemDone
    | ToolResult
    | Completed
    | Failed
    | Incomplete
    | Unknown(name: string)

  datatype Event = Event(
    sequence: nat,
    kind: Kind,
    itemId: string,
    itemKind: string,
    outputIndex: int,
    callId: string,
    delta: string,
    arguments: string)

  datatype Violation =
    | NonMonotonicSequence
    | EventAfterTerminal
    | UnknownSemanticEvent
    | MissingTerminalEvent
    | DuplicateResponseCreated
    | EventBeforeResponseCreated
    | DuplicateInProgress
    | InProgressAfterOutput
    | InvalidOutputItem
    | DuplicateItemId
    | DuplicateOutputIndex
    | MissingCallId
    | DuplicateCallId
    | CallIdForNonFunctionItem
    | ArgumentsDeltaAfterDone
    | DuplicateArgumentsDone
    | ArgumentsReconstructionMismatch
    | UnknownItemReference
    | EventForClosedItem
    | ArgumentsForNonFunctionItem
    | CallIdChanged
    | DuplicateOutputItemDone
    | FunctionItemDoneBeforeArguments
    | ToolResultUnknownCall
    | ToolResultBeforeCallDone
    | DuplicateToolResult
    | CompletedWithOpenItem

  datatype Item = Item(kind: string, callId: string, arguments: string, argumentsDone: bool, done: bool)

  datatype State = State(
    nextSequence: nat,
    created: bool,
    inProgress: bool,
    terminal: Option<Kind>,
    items: map<string, Item>,
    indexes: map<int, string>,
    calls: map<string, string>,
    toolResults: set<string>)

  const INITIAL := State(1, false, false, None, map[], map[], map[], {})

  predicate IsTerminal(kind: Kind) { kind.Completed? || kind.Failed? || kind.Incomplete? }

  predicate IsFunctionCall(itemKind: string) { itemKind == "function_call" }

  // ----- transitions

  function AddItem(s: State, e: Event): Result<State, Violation>
  {
    if e.itemId == "" || e.itemKind == "" || e.outputIndex < 0 then Err(InvalidOutputItem)
    else if e.itemId in s.items then Err(DuplicateItemId)
    else if e.outputIndex in s.indexes then Err(DuplicateOutputIndex)
    else if IsFunctionCall(e.itemKind) && e.callId == "" then Err(MissingCallId)
    else if IsFunctionCall(e.itemKind) && e.callId in s.calls then Err(DuplicateCallId)
    else if !IsFunctionCall(e.itemKind) && e.callId != "" then Err(CallIdForNonFunctionItem)
    else Ok(s.(items := s.items[e.itemId := Item(e.itemKind, e.callId, "", false, false)],
               indexes := s.indexes[e.outputIndex := e.itemId],
               calls := if IsFunctionCall(e.itemKind) then s.calls[e.callId := e.itemId] else s.calls))
  }

  function OpenCall(s: State, e: Event): Result<Item, Violation>
  {
    if e.itemId !in s.items then Err(UnknownItemReference)
    else
      var item := s.items[e.itemId];
      if item.done then Err(EventForClosedItem)
      else if !IsFunctionCall(item.kind) then Err(ArgumentsForNonFunctionItem)
      else if e.callId != "" && e.callId != item.callId then Err(CallIdChanged)
      else Ok(item)
  }

  function AddArguments(s: State, e: Event): Result<State, Violation>
  {
    match OpenCall(s, e)
    case Err(v) => Err(v)
    case Ok(item) =>
      if item.argumentsDone then Err(ArgumentsDeltaAfterDone)
      else Ok(s.(items := s.items[e.itemId := item.(arguments := item.arguments + e.delta)]))
  }

  function FinishArguments(s: State, e: Event): Result<State, Violation>
  {
    match OpenCall(s, e)
    case Err(v) => Err(v)
    case Ok(item) =>
      if item.argumentsDone then Err(DuplicateArgumentsDone)
      else if e.arguments != item.arguments then Err(ArgumentsReconstructionMismatch)
      else Ok(s.(items := s.items[e.itemId := item.(argumentsDone := true)]))
  }

  function FinishItem(s: State, e: Event): Result<State, Violation>
  {
    if e.itemId !in s.items then Err(UnknownItemReference)
    else
      var item := s.items[e.itemId];
      if item.done then Err(DuplicateOutputItemDone)
      else if IsFunctionCall(item.kind) && !item.argumentsDone then Err(FunctionItemDoneBeforeArguments)
      else if e.callId != "" && e.callId != item.callId then Err(CallIdChanged)
      else Ok(s.(items := s.items[e.itemId := item.(done := true)]))
  }

  function AcceptToolResult(s: State, e: Event): Result<State, Violation>
  {
    if e.callId !in s.calls then Err(ToolResultUnknownCall)
    else if s.calls[e.callId] in s.items && !s.items[s.calls[e.callId]].done then Err(ToolResultBeforeCallDone)
    else if e.callId in s.toolResults then Err(DuplicateToolResult)
    else Ok(s.(toolResults := s.toolResults + {e.callId}))
  }

  function FinishResponse(s: State, kind: Kind): Result<State, Violation>
  {
    if kind == Completed && exists id :: id in s.items && !s.items[id].done then Err(CompletedWithOpenItem)
    else Ok(s.(terminal := Some(kind)))
  }

  /** The effect of an event on the part of the state its type owns. */
  function Effect(s: State, e: Event): (r: Result<State, Violation>)
    ensures r.Ok? ==> r.value.nextSequence == s.nextSequence
    ensures r.Ok? && !IsTerminal(e.kind) ==> r.value.terminal == s.terminal
  {
    if e.kind.Unknown? then Err(UnknownSemanticEvent)
    else if e.kind.Created? then
      if s.created then Err(DuplicateResponseCreated) else Ok(s.(created := true))
    else if !s.created then Err(EventBeforeResponseCreated)
    else if e.kind.InProgress? then
      if s.inProgress then Err(DuplicateInProgress)
      else if |s.items| != 0 then Err(InProgressAfterOutput)
      else Ok(s.(inProgress := true))
    else if e.kind.ItemAdded? then AddItem(s, e)
    else if e.kind.ArgumentsDelta? then AddArguments(s, e)
    else if e.kind.ArgumentsDone? then FinishArguments(s, e)
    else if e.kind.ItemDone? then FinishItem(s, e)
    else if e.kind.ToolResult? then AcceptToolResult(s, e)
    else FinishResponse(s, e.kind)
  }

  function Transition(s: State, e: Event): Result<State, Violation>
  {
    if e.sequence != s.nextSequence then Err(NonMonotonicSequence)
    else if s.terminal.Some? then Err(EventAfterTerminal)
    else match Effect(s, e)
      case Err(v) => Err(v)
      case Ok(t) => Ok(t.(nextSequence := t.nextSequence + 1))
  }

  /** The state after a whole trace, or the first violation. */
  function Run(trace: seq<Event>): Result<State, Violation>
  {
    if trace == [] then Ok(INITIAL)
    else
      var n := |trace| - 1;
      match Run(trace[..n])
      case Err(v) => Err(v)
      case Ok(s) => Transition(s, trace[n])
  }

  /** Every event is accepted and so is the end of the evidence. */
  predicate Accepted(trace: seq<Event>)
  {
    Run(trace).Ok? && Run(trace).value.terminal.Some?
  }

  // ----- the machine object

  class Machine {
    var nextSequence: nat
    var created: bool
    var inProgress: bool
    var terminal: Option<Kind>
    var items: map<string, Item>
    var indexes: map<int, string>
    var calls: map<string, string>
    var toolResults: set<string>

    ghost function Model(): State
      reads this
    {
      State(nextSequence, created, inProgress, terminal, items, indexes, calls, toolResults)
    }

    /** Every registered call belongs to a registered item. */
    ghost predicate Valid()
      reads this
    {
      CallsHaveItems(Model())
    }

    constructor ()
      ensures Model() == INITIAL && Valid()
    {
      nextSequence, created, inProgress, terminal := 1, false, false, None;
      items, indexes, calls, toolResults := map[], map[], map[], {};
    }

    /** A rejected event leaves the whole state unchanged. */
    method Apply(event: Event) returns (violation: Option<Violation>)
      requires Valid()
      modifies this
      ensures Valid()
      ensures match Transition(old(Model()), event)
              case Ok(s) => violation == None && Model() == s
              case Err(v) => violation == Some(v) && Model() == old(Model())
    {
      hide Effect;
      if event.sequence != nextSequence { return Some(NonMonotonicSequence); }
      if terminal.Some? { return Some(EventAfterTerminal); }
      violation := Dispatch(event);
      if violation.Some? { return; }
      nextSequence := nextSequence + 1;
    }

    method Dispatch(event: Event) returns (violation: Option<Violation>)
      requires Valid()
      modifies this
      ensures Valid()
      ensures match Effect(old(Model()), event)
              case Ok(s) => violation == None && Model() == s
              case Err(v) => violation == Some(v) && Model() == old(Model())
    {
      hide AddItem, AddArguments, FinishArguments, FinishItem, AcceptToolResult, FinishResponse;
      if event.kind.Unknown? { return Some(UnknownSemanticEvent); }
      if event.kind.Created? {
        if created { return Some(DuplicateResponseCreated); }
        created := true;
        return None;
      }
      if !created { return Some(EventBeforeResponseCreated); }
      if event.kind.InProgress? {
        if inProgress { return Some(DuplicateInProgress); }
        if |items| != 0 { return Some(InProgressAfterOutput); }
        inProgress := true;
        return None;
      } else if event.kind.ItemAdded? {
        violation := Add(event);
      } else if event.kind.ArgumentsDelta? {
        violation := Delta(event);
      } else if event.kind.ArgumentsDone? {
        violation := ArgsDone(event);
      } else if event.kind.ItemDone? {
        violation := Close(event);
      } else if event.kind.ToolResult? {
        violation := Result(event);
      } else {
        violation := Terminate(event.kind);
      }
    }

    method Add(event: Event) returns (violation: Option<Violation>)
      requires Valid()
      modifies this
      ensures Valid()
      ensures match AddItem(old(Model()), event)
              case Ok(s) => violation == None && Model() == s
              case Err(v) => violation == Some(v) && Model() == old(Model())
    {
      hide IsFunctionCall;
      if event.itemId == "" || event.itemKind == "" || event.outputIndex < 0 { return Some(InvalidOutputItem); }
      if event.itemId in items { return Some(DuplicateItemId); }
      if event.outputIndex in indexes { return Some(DuplicateOutputIndex); }
      if IsFunctionCall(event.itemKind) {
        if event.callId == "" { return Some(MissingCallId); }
        if event.callId in calls { return Some(DuplicateCallId); }
        calls := calls[event.callId := event.itemId];
      } else if event.callId != "" {
        return Some(CallIdForNonFunctionItem);
      }
      items := items[event.itemId := Item(event.itemKind, event.callId, "", false, false)];
      indexes := indexes[event.outputIndex := event.itemId];
      violation := None;
    }

    method Delta(event: Event) returns (violation: Option<Violation>)
      requires Valid()
      modifies this
      ensures Valid()
      ensures match AddArguments(old(Model()), event)
              case Ok(s) => violation == None && Model() == s
              case Err(v) => violation == Some(v) && Model() == old(Model())
    {
      hide IsFunctionCall;
      var open := OpenCall(Current(), event);
      if open.Err? { return Some(open.error); }
      if open.value.argumentsDone { return Some(ArgumentsDeltaAfterDone); }
      items := items[event.itemId := open.value.(arguments := open.value.arguments + event.delta)];
      violation := None;
    }

    method ArgsDone(event: Event) returns (violation: Option<Violation>)
      requires Valid()
      modifies this
      ensures Valid()
      ensures match FinishArguments(old(Model()), event)
              case Ok(s) => violation == None && Model() == s
              case Err(v) => violation == Some(v) && Model() == old(Model())
    {
      hide IsFunctionCall;
      var open := OpenCall(Current(), event);
      if open.Err? { return Some(open.error); }
      if open.value.argumentsDone { return Some(DuplicateArgumentsDone); }
      if event.arguments != open.value.arguments { return Some(ArgumentsReconstructionMismatch); }
      items := items[event.itemId := open.value.(argumentsDone := true)];
      violation := None;
    }

    method Close(event: Event) returns (violation: Option<Violation>)
      requires Valid()
      modifies this
      ensures Valid()
      ensures match FinishItem(old(Model()), event)
              case Ok(s) => violation == None && Model() == s
              case Err(v) => violation == Some(v) && Model() == old(Model())
    {
      hide IsFunctionCall;
      if event.itemId !in items { return Some(UnknownItemReference); }
      var item := items[event.itemId];
      if item.done { return Some(DuplicateOutputItemDone); }
      if IsFunctionCall(item.kind) && !item.argumentsDone { return Some(FunctionItemDoneBeforeArguments); }
      if event.callId != "" && event.callId != item.callId { return Some(CallIdChanged); }
      items := items[event.itemId := item.(done := true)];
      violation := None;
    }

    method Result(event: Event) returns (violation: Option<Violation>)
      requires Valid()
      modifies this
      ensures Valid()
      ensures match AcceptToolResult(old(Model()), event)
              case Ok(s) => violation == None && Model() == s
              case Err(v) => violation == Some(v) && Model() == old(Model())
    {
      if event.callId !in calls { return Some(ToolResultUnknownCall); }
      if !items[calls[event.callId]].done { return Some(ToolResultBeforeCallDone); }
      if event.callId in toolResults { return Some(DuplicateToolResult); }
      toolResults := toolResults + {event.callId};
      violation := None;
    }

    method Terminate(kind: Kind) returns (violation: Option<Violation>)
      requires Valid()
      modifies this
      ensures Valid()
      ensures match FinishResponse(old(Model()), kind)
              case Ok(s) => violation == None && Model() == s
              case Err(v) => violation == Some(v) && Model() == old(Model())
    {
      if kind == Completed {
        var pending := items.Keys;
        while pending != {}
          invariant pending <= items.Keys
          invariant forall id :: id in items && id !in pending ==> items[id].done
        {
          var id :| id in pending;
          if !items[id].done { return Some(CompletedWithOpenItem); }
          pending := pending - {id};
        }
      }
      terminal := Some(kind);
      violation := None;
    }

    function Current(): (s: State)
      reads this
      ensures s == Model()
    {
      State(nextSequence, created, inProgress, terminal, items, indexes, calls, toolResults)
    }

    /** Finishing settles whether the trace applied so far is accepted. */
    method Finish() returns (violation: Option<Violation>)
      ensures forall trace :: Run(trace) == Ok(Model()) ==> (violation.None? <==> Accepted(trace))
      ensures violation.Some? ==> violation.value == MissingTerminalEvent
    {
      hide Transition;
      violation := if terminal.None? then Some(MissingTerminalEvent) else None;
    }

    method ReconstructedArguments(itemId: string) returns (arguments: Option<string>)
      ensures arguments == if itemId in items then Some(items[itemId].arguments) else None
    {
      arguments := if itemId in items then Some(items[itemId].arguments) else None;
    }
  }

  ghost predicate CallsHaveItems(s: State)
  {
    forall call :: call in s.calls ==> s.calls[call] in s.items
  }
}
