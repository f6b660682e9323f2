/**
  Messages, events and the event grammar of one agent run
  (packages/agent/src/agent-loop.ts, packages/agent/src/types.ts).
 */
module Transcript {
  import opened Wrappers

  datatype ToolCall = ToolCall(id: string, name: string, arguments: string)

  datatype Block = Text(text: string) | Thinking(text: string) | Call(call: ToolCall)

  datatype StopReason = Stop | ToolUse | Length | Failure | Aborted

  datatype Message =
    | User(text: string)
    | Assistant(content: seq<Block>, stopReason: StopReason, errorMessage: Option<string>, isCheckpoint: bool)
    | ToolResult(toolCallId: string, toolName: string, output: string, isError: bool)

  /** The tool calls of a message, in source order. */
  function CallsOf(content: seq<Block>): seq<ToolCall> {
    if content == [] then []
    else if content[0].Call? then [content[0].call] + CallsOf(content[1..])
    else CallsOf(content[1..])
  }

  datatype Event =
    | AgentStart
    | TurnStart
    | MessageStart(message: Message)
    | MessageUpdate(message: Message)
    | MessageEnd(message: Message)
    | ToolStart(toolCallId: string)
    | ToolUpdate(toolCallId: string)
    | ToolEnd(toolCallId: string)
    | TurnEnd(message: Message, toolResults: seq<Message>)
    | AgentEnd(messages: seq<Message>)

  /**
    Where a run stands. `open` holds the ids of tool executions that have started and not ended.
    A run that the no-progress guard stops adds one message after its last turn.
   */
  datatype Stage =
    | Unstarted
    | BeforeFirstTurn
    | InTurn(open: multiset<string>)
    | InMessage(open: multiset<string>)
    | BetweenTurns
    | InClosingMessage
    | Closing
    | Ended
    | Broken

  function Next(stage: Stage, event: Event): Stage {
    match event
    case AgentStart => if stage == Unstarted then BeforeFirstTurn else Broken
    case TurnStart => if stage == BeforeFirstTurn || stage == BetweenTurns then InTurn(multiset{}) else Broken
    case MessageStart(_) =>
      if stage.InTurn? then InMessage(stage.open)
      else if stage == BetweenTurns then InClosingMessage
      else Broken
    case MessageUpdate(_) => if stage.InMessage? then stage else Broken
    case MessageEnd(_) =>
      if stage.InMessage? then InTurn(stage.open)
      else if stage == InClosingMessage then Closing
      else Broken
    case ToolStart(id) => if stage.InTurn? then InTurn(stage.open + multiset{id}) else Broken
    case ToolUpdate(id) => if stage.InTurn? && id in stage.open then stage else Broken
    case ToolEnd(id) => if stage.InTurn? && id in stage.open then InTurn(stage.open - multiset{id}) else Broken
    case TurnEnd(_, _) => if stage == InTurn(multiset{}) then BetweenTurns else Broken
    case AgentEnd(_) => if stage == BetweenTurns || stage == Closing then Ended else Broken
  }

  function StageOf(trace: seq<Event>): Stage {
    if trace == [] then Unstarted else Next(StageOf(trace[..|trace| - 1]), trace[|trace| - 1])
  }

  /** The payloads of the `message_end` events, in order. */
  function Committed(trace: seq<Event>): seq<Message> {
    if trace == [] then [] else
      var last := trace[|trace| - 1];
      var front := Committed(trace[..|trace| - 1]);
      if last.MessageEnd? then front + [last.message] else front
  }

  /** The call ids of the `tool_execution_start` events, in order. */
  function StartedCalls(trace: seq<Event>): seq<string> {
    if trace == [] then [] else
      var last := trace[|trace| - 1];
      var front := StartedCalls(trace[..|trace| - 1]);
      if last.ToolStart? then front + [last.toolCallId] else front
  }

  /** What a `turn_end` reports: the response of its turn and its tool results. */
  datatype TurnReport = TurnReport(message: Message, toolResults: seq<Message>)

  /** The payloads of the `turn_end` events, in order. */
  function TurnReports(trace: seq<Event>): seq<TurnReport> {
    if trace == [] then [] else
      var last := trace[|trace| - 1];
      var front := TurnReports(trace[..|trace| - 1]);
      if last.TurnEnd? then front + [TurnReport(last.message, last.toolResults)] else front
  }

  lemma Extend(trace: seq<Event>, event: Event)
    ensures StageOf(trace + [event]) == Next(StageOf(trace), event)
    ensures Committed(trace + [event]) ==
      if event.MessageEnd? then Committed(trace) + [event.message] else Committed(trace)
    ensures StartedCalls(trace + [event]) ==
      if event.ToolStart? then StartedCalls(trace) + [event.toolCallId] else StartedCalls(trace)
    ensures TurnReports(trace + [event]) ==
      if event.TurnEnd? then TurnReports(trace) + [TurnReport(event.message, event.toolResults)] else TurnReports(trace)
  {
    assert (trace + [event])[..|trace|] == trace;
  }

  // ------------------------------------------------------------------ what accepted traces look like

  /** How many turns, messages and runs the events start or end; tool executions by call id. */
  datatype Tally = Tally(
    runStarts: nat, runEnds: nat, turnStarts: nat, turnEnds: nat, messageStarts: nat, messageEnds: nat,
    toolStarts: multiset<string>, toolEnds: multiset<string>)
  {
    function Counted(event: Event): Tally {
      match event
      case AgentStart => this.(runStarts := runStarts + 1)
      case AgentEnd(_) => this.(runEnds := runEnds + 1)
      case TurnStart => this.(turnStarts := turnStarts + 1)
      case TurnEnd(_, _) => this.(turnEnds := turnEnds + 1)
      case MessageStart(_) => this.(messageStarts := messageStarts + 1)
      case MessageEnd(_) => this.(messageEnds := messageEnds + 1)
      case ToolStart(id) => this.(toolStarts := toolStarts + multiset{id})
      case ToolEnd(id) => this.(toolEnds := toolEnds + multiset{id})
      case _ => this
    }
  }

  function TallyOf(trace: seq<Event>): Tally {
    if trace == [] then Tally(0, 0, 0, 0, 0, 0, multiset{}, multiset{})
    else TallyOf(trace[..|trace| - 1]).Counted(trace[|trace| - 1])
  }

  /** What a stage knows about the events that led to it. */
  ghost predicate Explains(stage: Stage, t: Tally) {
    var inTurn := stage.InTurn? || stage.InMessage?;
    && t.runStarts == (if stage == Unstarted then 0 else 1)
    && t.runEnds == (if stage == Ended then 1 else 0)
    && t.turnStarts == t.turnEnds + (if inTurn then 1 else 0)
    && t.messageStarts == t.messageEnds + (if stage.InMessage? || stage == InClosingMessage then 1 else 0)
    && t.toolStarts == t.toolEnds + (if inTurn then stage.open else multiset{})
  }

  lemma {:induction false} StageExplains(trace: seq<Event>)
    requires StageOf(trace) != Broken
    ensures Explains(StageOf(trace), TallyOf(trace)) && (StageOf(trace) == Unstarted <==> trace == [])
  {
    if trace == [] {
      ExplainsNothing();
    } else {
      hide Explains, Next, Tally.Counted;
      var n := |trace| - 1;
      StageExplains(trace[..n]);
      ExplainsNext(StageOf(trace[..n]), TallyOf(trace[..n]), trace[n]);
    }
  }

  lemma ExplainsNext(stage: Stage, t: Tally, event: Event)
    requires Explains(stage, t) && Next(stage, event) != Broken
    ensures Explains(Next(stage, event), t.Counted(event)) && Next(stage, event) != Unstarted
  {
  }

  lemma ExplainsNothing()
    ensures Explains(StageOf([]), TallyOf([])) && StageOf([]) == Unstarted
  {
  }

  /** An accepted trace was acceptable all the time, and nothing follows its end. */
  lemma {:induction false} PrefixAccepted(trace: seq<Event>, k: nat)
    requires StageOf(trace) != Broken && k <= |trace|
    ensures StageOf(trace[..k]) != Broken && (k < |trace| ==> StageOf(trace[..k]) != Ended)
    decreases |trace|
  {
    if k < |trace| {
      var n := |trace| - 1;
      PrefixAccepted(trace[..n], k);
      assert trace[..n][..k] == trace[..k];
    } else {
      assert trace[..k] == trace;
    }
  }

  ghost predicate Alternates(t: Tally) {
    && t.turnEnds <= t.turnStarts <= t.turnEnds + 1 && t.messageEnds <= t.messageStarts <= t.messageEnds + 1
    && t.toolEnds <= t.toolStarts
  }

  /** Nothing is under way, except perhaps the turn itself. */
  ghost predicate Balanced(t: Tally) {
    t.messageEnds == t.messageStarts && t.toolEnds == t.toolStarts
  }

  /** One event of an accepted trace, and the events before it. */
  lemma {:induction false} AcceptedAt(trace: seq<Event>, k: nat)
    requires StageOf(trace) != Broken && k < |trace|
    ensures var stage := StageOf(trace[..k]);
      && Explains(stage, TallyOf(trace[..k])) && Next(stage, trace[k]) != Broken
      && (stage == Unstarted <==> k == 0) && (Next(stage, trace[k]) == Ended ==> k == |trace| - 1)
  {
    PrefixAccepted(trace, k);
    PrefixAccepted(trace, k + 1);
    StageExplains(trace[..k]);
    assert trace[..k + 1] == trace[..k] + [trace[k]];
    Extend(trace[..k], trace[k]);
  }

  /** What an event tells about a stage that accepts it. */
  lemma Accepting(stage: Stage, t: Tally, event: Event)
    requires Explains(stage, t) && Next(stage, event) != Broken && stage != Ended
    ensures (event.AgentStart? <==> stage == Unstarted) && (event.AgentEnd? <==> Next(stage, event) == Ended)
    ensures Alternates(t) && (event.TurnEnd? ==> Balanced(t))
  {
  }

  lemma {:induction false} AcceptedEvent(trace: seq<Event>, k: nat)
    requires StageOf(trace) != Broken && k < |trace|
    ensures (trace[k].AgentStart? <==> k == 0) && (trace[k].AgentEnd? ==> k == |trace| - 1)
    ensures Alternates(TallyOf(trace[..k])) && (trace[k].TurnEnd? ==> Balanced(TallyOf(trace[..k])))
  {
    hide StageOf, TallyOf, Explains, Alternates, Balanced, Next;
    AcceptedAt(trace, k);
    PrefixAccepted(trace, k);
    Accepting(StageOf(trace[..k]), TallyOf(trace[..k]), trace[k]);
  }

  /**
    The trace of a finished run: `agent_start` comes first and `agent_end` last, and neither occurs
    elsewhere; turns alternate, and so do the starts and ends of messages; every tool execution ends
    as often as it starts, never before it starts and within its turn.
   */
  lemma {:induction false} FinishedTrace(trace: seq<Event>)
    requires StageOf(trace) == Ended
    ensures |trace| > 1 && trace[0] == AgentStart && trace[|trace| - 1].AgentEnd?
    ensures forall k | 0 < k < |trace| - 1 :: !trace[k].AgentStart? && !trace[k].AgentEnd?
    ensures forall k | 0 <= k < |trace| :: Alternates(TallyOf(trace[..k]))
    ensures forall k | 0 <= k < |trace| && trace[k].TurnEnd? :: Balanced(TallyOf(trace[..k]))
    ensures Balanced(TallyOf(trace)) && TallyOf(trace).turnEnds == TallyOf(trace).turnStarts
  {
    hide TallyOf, Alternates, Next;
    StageExplains(trace);
    var n := |trace| - 1;
    AcceptedAt(trace, n);
    PrefixAccepted(trace, n);
    assert StageOf(trace) == Next(StageOf(trace[..n]), trace[n]);
    Accepting(StageOf(trace[..n]), TallyOf(trace[..n]), trace[n]);
    hide *;
    forall k | 0 <= k < |trace|
      ensures (trace[k].AgentStart? <==> k == 0) && (trace[k].AgentEnd? ==> k == |trace| - 1)
      ensures Alternates(TallyOf(trace[..k])) && (trace[k].TurnEnd? ==> Balanced(TallyOf(trace[..k])))
    {
      AcceptedEvent(trace, k);
    }
  }
}
