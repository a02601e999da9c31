/**
 Content blocks beside the lifecycle machine: a native table of blocks, and what
 each lifecycle event of a decoder does when the machine's tables mirror it.
 */
module BlockMirror {
  import opened Common
  import opened Lifecycle
  import opened LifecycleGrammar
  import opened StreamDecoder
  import opened StreamTheorems

  /** What the protocol says about one content block. */
  datatype Block = Block(kind: string, callId: string, text: string, stopped: bool)

  /** A tool_use block is a function call; so is one that calls itself one. */
  function LifecycleKind(kind: string): string { if kind == "tool_use" then FUNCTION_CALL else kind }

  predicate IsCall(b: Block) { IsFunctionCall(LifecycleKind(b.kind)) }

  ghost predicate CallTaken(b: map<int, Block>, callId: string)
  {
    exists k :: k in b && IsCall(b[k]) && b[k].callId == callId
  }

  function ItemOf(b: Block): Item
  {
    Item(LifecycleKind(b.kind), b.callId, b.text, b.stopped && IsCall(b), b.stopped)
  }

  function ToolOf(p: Protocol, k: int, b: Block): Tool { Tool(ItemName(p, k), b.callId, b.text) }

  ghost predicate NamesBlock(p: Protocol, b: map<int, Block>, id: string)
  {
    exists k :: k in b && ItemName(p, k) == id
  }

  /** The machine's tables are the blocks. */
  ghost predicate Mirrors(p: Protocol, s: Lifecycle.State, b: map<int, Block>)
  {
    && (forall k :: k in b ==> ItemName(p, k) in s.items && s.items[ItemName(p, k)] == ItemOf(b[k]))
    && (forall id :: id in s.items ==> NamesBlock(p, b, id))
    && s.indexes.Keys == b.Keys
    && (forall callId :: callId in s.calls <==> CallTaken(b, callId))
    && (forall k :: k in b ==> (IsCall(b[k]) <==> b[k].callId != ""))
  }

  ghost predicate DecoderMirrors(p: Protocol, tools: map<int, Tool>, b: map<int, Block>)
  {
    tools.Keys == b.Keys && forall k :: k in b ==> tools[k] == ToolOf(p, k, b[k])
  }

  lemma NameInjective(p: Protocol, i: int, j: int)
    requires ItemName(p, i) == ItemName(p, j)
    ensures i == j
  {
    hide ItemName;
    ItemNameInjective(p, i, j);
  }

  /** One emitted event, on a run that is still good. */
  lemma EmitRuns(d: Decoding, e: Event)
    requires Run(d.events).Ok?
    ensures var s, numbered := Run(d.events).value, e.(sequence := |d.events| + 1);
            Run(Emit(d, e).events) ==
            if s.terminal.Some? then Err(EventAfterTerminal)
            else match Effect(s, numbered) case Err(v) => Err(v) case Ok(t) => Ok(t.(nextSequence := t.nextSequence + 1))
  {
    hide Effect, Remembers, Run;
    RunRemembers(d.events);
    assert Run(d.events).value.nextSequence == |d.events| + 1 by { Numbered(Run(d.events).value, d.events); }
    RunSnoc(d.events, e.(sequence := |d.events| + 1));
  }

  lemma Numbered(s: Lifecycle.State, h: seq<Event>)
    requires Remembers(s, h)
    ensures s.nextSequence == |h| + 1
  {
  }

  lemma EmitStaysFailed(d: Decoding, e: Event)
    requires Run(d.events).Err?
    ensures Run(Emit(d, e).events).Err?
  {
    hide Transition;
    RunSnoc(d.events, e.(sequence := |d.events| + 1));
  }

  /** Renumbering does not matter. */
  lemma MirrorsAnyNumber(p: Protocol, s: Lifecycle.State, b: map<int, Block>, n: nat)
    requires Mirrors(p, s, b)
    ensures Mirrors(p, s.(nextSequence := n), b)
  {
    hide ItemName, NamesBlock, CallTaken;
  }

  lemma NamesAfterStart(p: Protocol, b: map<int, Block>, k: int, block: Block)
    requires k !in b
    ensures NamesBlock(p, b[k := block], ItemName(p, k)) && forall id :: NamesBlock(p, b, id) ==> NamesBlock(p, b[k := block], id)
    ensures forall callId :: CallTaken(b[k := block], callId) <==> CallTaken(b, callId) || (IsCall(block) && block.callId == callId)
  {
    hide ItemName, IsCall;
    var after := b[k := block];
    assert after[k] == block && forall j :: j in b ==> after[j] == b[j];
    forall id | NamesBlock(p, b, id) ensures NamesBlock(p, after, id) {
      var j :| j in b && ItemName(p, j) == id;
      assert j in after;
    }
    forall callId | CallTaken(b, callId) ensures CallTaken(after, callId) {
      var j :| j in b && IsCall(b[j]) && b[j].callId == callId;
      assert after[j] == b[j];
    }
  }

  predicate Startable(b: map<int, Block>, k: int, kind: string, callId: string, taken: bool)
  {
    && k >= 0 && k !in b && kind != ""
    && (if IsFunctionCall(LifecycleKind(kind)) then callId != "" && !taken else callId == "")
  }

  lemma FreshName(p: Protocol, s: Lifecycle.State, b: map<int, Block>, k: int)
    requires Mirrors(p, s, b)
    ensures ItemName(p, k) in s.items <==> k in b
    ensures ItemName(p, k) != ""
  {
    if ItemName(p, k) in s.items && k !in b {
      var j :| j in b && ItemName(p, j) == ItemName(p, k);
      NameInjective(p, j, k);
    }
  }

  lemma StartEffect(p: Protocol, s: Lifecycle.State, b: map<int, Block>, k: int, kind: string, callId: string, e: Event)
    requires s.created && Mirrors(p, s, b)
    requires e == Added(ItemName(p, k), LifecycleKind(kind), k, callId).(sequence := e.sequence)
    ensures Effect(s, e).Ok? <==> Startable(b, k, kind, callId, CallTaken(b, callId))
    ensures Effect(s, e).Ok? ==> Mirrors(p, Effect(s, e).value, b[k := Block(kind, callId, "", false)])
  {
    hide ItemName, IsFunctionCall, NamesBlock, CallTaken, OpenCall, AddArguments, FinishArguments, FinishItem, AcceptToolResult, FinishResponse;
    FreshName(p, s, b, k);
    assert LifecycleKind(kind) == "" <==> kind == "";
    if Startable(b, k, kind, callId, CallTaken(b, callId)) {
      StartMirrors(p, s, b, k, Block(kind, callId, "", false), Effect(s, e).value);
    }
  }

  lemma StartMirrors(p: Protocol, s: Lifecycle.State, b: map<int, Block>, k: int, block: Block, t: Lifecycle.State)
    requires Mirrors(p, s, b) && k !in b && block.text == "" && !block.stopped && (IsCall(block) <==> block.callId != "")
    requires t == s.(items := s.items[ItemName(p, k) := ItemOf(block)], indexes := s.indexes[k := ItemName(p, k)],
                     calls := if IsCall(block) then s.calls[block.callId := ItemName(p, k)] else s.calls)
    ensures Mirrors(p, t, b[k := block])
  {
    hide ItemName, IsCall, NamesBlock, CallTaken;
    var after := b[k := block];
    NamesAfterStart(p, b, k, block);
    forall j | j in after ensures ItemName(p, j) in t.items && t.items[ItemName(p, j)] == ItemOf(after[j]) {
      if j != k && ItemName(p, j) == ItemName(p, k) { NameInjective(p, j, k); }
    }
    assert t.indexes.Keys == after.Keys;
    forall id | id in t.items ensures NamesBlock(p, after, id) {
      if id != ItemName(p, k) { assert id in s.items && NamesBlock(p, b, id); }
    }
    forall callId ensures callId in t.calls <==> CallTaken(after, callId) {
      assert callId in s.calls <==> CallTaken(b, callId);
    }
    forall j | j in after ensures IsCall(after[j]) <==> after[j].callId != "" {}
  }

  lemma NamesAfterChange(p: Protocol, b: map<int, Block>, k: int, block: Block)
    requires k in b && block.kind == b[k].kind && block.callId == b[k].callId
    ensures forall id :: NamesBlock(p, b, id) ==> NamesBlock(p, b[k := block], id)
    ensures forall callId :: CallTaken(b[k := block], callId) <==> CallTaken(b, callId)
  {
    hide ItemName;
    var after := b[k := block];
    forall id | NamesBlock(p, b, id) ensures NamesBlock(p, after, id) {
      var j :| j in b && ItemName(p, j) == id;
      assert j in after;
    }
    forall callId | CallTaken(b, callId) ensures CallTaken(after, callId) {
      var j :| j in b && IsCall(b[j]) && b[j].callId == callId;
      assert IsCall(after[j]) && after[j].callId == callId;
    }
    forall callId | CallTaken(after, callId) ensures CallTaken(b, callId) {
      var j :| j in after && IsCall(after[j]) && after[j].callId == callId;
      assert IsCall(b[j]) && b[j].callId == callId;
    }
  }

  lemma ChangeMirrors(p: Protocol, s: Lifecycle.State, b: map<int, Block>, k: int, block: Block, t: Lifecycle.State)
    requires Mirrors(p, s, b) && k in b && block.kind == b[k].kind && block.callId == b[k].callId
    requires t == s.(items := s.items[ItemName(p, k) := ItemOf(block)])
    ensures Mirrors(p, t, b[k := block])
  {
    hide ItemName, NamesBlock, CallTaken, IsFunctionCall;
    var after := b[k := block];
    NamesAfterChange(p, b, k, block);
    forall j | j in after ensures ItemName(p, j) in t.items && t.items[ItemName(p, j)] == ItemOf(after[j]) {
      if j != k && ItemName(p, j) == ItemName(p, k) { NameInjective(p, j, k); }
    }
  }

  lemma DeltaEffect(p: Protocol, s: Lifecycle.State, b: map<int, Block>, k: int, callId: string, partial: string, e: Event)
    requires s.created && Mirrors(p, s, b) && k in b
    requires e == Delta(ToolOf(p, k, b[k]), callId, partial).(sequence := e.sequence)
    ensures Effect(s, e).Ok? <==> IsCall(b[k]) && !b[k].stopped && (callId == "" || callId == b[k].callId)
    ensures Effect(s, e).Ok? ==> Mirrors(p, Effect(s, e).value, b[k := b[k].(text := b[k].text + partial)])
  {
    hide ItemName, IsFunctionCall, NamesBlock, CallTaken, AddItem, FinishArguments, FinishItem, AcceptToolResult, FinishResponse;
    if Effect(s, e).Ok? { ChangeMirrors(p, s, b, k, b[k].(text := b[k].text + partial), Effect(s, e).value); }
  }

  /** Arguments done, then item done, of an open call; or item done of any other block. */
  lemma StopEffect(p: Protocol, s: Lifecycle.State, b: map<int, Block>, k: int, m: nat, n: nat)
    requires s.created && Mirrors(p, s, b) && k in b
    ensures var args, done := ArgsDoneOf(ToolOf(p, k, b[k])).(sequence := m), ItemDoneOf(ToolOf(p, k, b[k])).(sequence := n);
            && (IsCall(b[k]) ==> (Effect(s, args).Ok? <==> !b[k].stopped))
            && (IsCall(b[k]) && !b[k].stopped ==>
                  var middle := Effect(s, args).value.(nextSequence := n);
                  middle.created && middle.terminal == s.terminal && Effect(middle, done).Ok? && Mirrors(p, Effect(middle, done).value, b[k := b[k].(stopped := true)]))
            && (!IsCall(b[k]) ==>
                  && (Effect(s, done).Ok? <==> !b[k].stopped)
                  && (!b[k].stopped ==> Mirrors(p, Effect(s, done).value, b[k := b[k].(stopped := true)])))
  {
    hide ItemName, IsFunctionCall, NamesBlock, CallTaken, AddItem, AddArguments, AcceptToolResult, FinishResponse, Mirrors;
    var args, done := ArgsDoneOf(ToolOf(p, k, b[k])).(sequence := m), ItemDoneOf(ToolOf(p, k, b[k])).(sequence := n);
    var id, shut := ItemName(p, k), b[k].(stopped := true);
    MirroredItem(p, s, b, k);
    if IsCall(b[k]) && !b[k].stopped {
      var middle := Effect(s, args).value.(nextSequence := n);
      var end := Effect(middle, done).value;
      assert end.items == s.items[id := ItemOf(shut)];
      MirrorsAnyNumber(p, s, b, n);
      ChangeMirrors(p, s.(nextSequence := n), b, k, shut, end);
    }
    if !IsCall(b[k]) && !b[k].stopped { ChangeMirrors(p, s, b, k, shut, Effect(s, done).value); }
  }

  lemma MirroredItem(p: Protocol, s: Lifecycle.State, b: map<int, Block>, k: int)
    requires Mirrors(p, s, b) && k in b
    ensures ItemName(p, k) in s.items && s.items[ItemName(p, k)] == ItemOf(b[k])
  {
  }

  lemma EndEffect(p: Protocol, s: Lifecycle.State, b: map<int, Block>, e: Event)
    requires s.created && Mirrors(p, s, b) && e.kind == Completed
    ensures Effect(s, e).Ok? <==> forall k :: k in b ==> b[k].stopped
    ensures Effect(s, e).Ok? ==> Effect(s, e).value == s.(terminal := Some(Completed))
  {
    hide ItemName, CallTaken, AddItem, AddArguments, FinishArguments, FinishItem, AcceptToolResult;
    if forall k :: k in b ==> b[k].stopped {
      forall id | id in s.items ensures s.items[id].done {
        var k :| k in b && ItemName(p, k) == id;
      }
    } else {
      var k :| k in b && !b[k].stopped;
      assert !s.items[ItemName(p, k)].done;
    }
  }

  lemma NotCreated(s: Lifecycle.State, e: Event)
    requires !s.created && e.kind != Created
    ensures Effect(s, e).Err?
  {
  }

  /** The state after an effect, once numbered. */
  lemma StepMirrors(p: Protocol, s: Lifecycle.State, e: Event, b: map<int, Block>)
    requires Effect(s, e).Ok? && Mirrors(p, Effect(s, e).value, b) && !IsTerminal(e.kind) && e.kind != Created
    ensures var t := Effect(s, e).value.(nextSequence := Effect(s, e).value.nextSequence + 1);
            Mirrors(p, t, b) && t.created == s.created && t.terminal == s.terminal
  {
    hide Mirrors;
    MirrorsAnyNumber(p, Effect(s, e).value, b, Effect(s, e).value.nextSequence + 1);
  }

  lemma CallsHaveIds(p: Protocol, s: Lifecycle.State, b: map<int, Block>, k: int)
    requires Mirrors(p, s, b) && k in b
    ensures IsCall(b[k]) <==> b[k].callId != ""
  {
  }

  lemma NumberAfter(d: Decoding)
    requires Run(d.events).Ok?
    ensures Run(d.events).value.nextSequence == |d.events| + 1
  {
    hide Run;
    RunRemembers(d.events);
    Numbered(Run(d.events).value, d.events);
  }

  lemma CreatedMirrors(p: Protocol, s: Lifecycle.State, b: map<int, Block>, n: nat, terminal: Option<Kind>)
    requires Mirrors(p, s, b)
    ensures Mirrors(p, s.(created := true, nextSequence := n, terminal := terminal), b)
  {
    hide ItemName, NamesBlock, CallTaken;
  }

  /** Closing a call block: accepted exactly while the message goes on and the block is open. */
  lemma CloseCall(p: Protocol, d: Decoding, b: map<int, Block>, k: int)
    requires Run(d.events).Ok? && Run(d.events).value.created && Mirrors(p, Run(d.events).value, b) && k in b && IsCall(b[k])
    ensures var s := Run(d.events).value;
            var r := Run(Emit(Emit(d, ArgsDoneOf(ToolOf(p, k, b[k]))), ItemDoneOf(ToolOf(p, k, b[k]))).events);
            if s.terminal.None? && !b[k].stopped
            then r.Ok? && Mirrors(p, r.value, b[k := b[k].(stopped := true)]) && r.value.created && r.value.terminal.None?
            else r.Err?
  {
    hide ItemName, Mirrors, Effect, Run, IsCall;
    var s, tool, m := Run(d.events).value, ToolOf(p, k, b[k]), |d.events| + 1;
    StopEffect(p, s, b, k, m, m + 1);
    EmitRuns(d, ArgsDoneOf(tool));
    var middle := Emit(d, ArgsDoneOf(tool));
    if s.terminal.None? && !b[k].stopped {
      NumberAfter(d);
      assert Run(middle.events).value == Effect(s, ArgsDoneOf(tool).(sequence := m)).value.(nextSequence := m + 1);
      EmitRuns(middle, ItemDoneOf(tool));
      StepMirrors(p, Run(middle.events).value, ItemDoneOf(tool).(sequence := m + 1), b[k := b[k].(stopped := true)]);
    } else {
      EmitStaysFailed(middle, ItemDoneOf(tool));
    }
  }
}
