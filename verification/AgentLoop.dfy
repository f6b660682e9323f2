/**
  The agent loop: nested turn, steering and follow-up loops over a provider and tools
  (packages/agent/src/agent-loop.ts).

  Hooks, provider streams, tools and the rest of the program are inputs; what other code does while
  the loop awaits comes from the tape of `Agents.Agent`.
 */
module AgentLoops {
  import opened Wrappers
  import opened Transcript
  import opened RunScopes
  import opened Agents
  import opened NoProgress
  import opened ToolCalls

  /** Where a new message came from. */
  datatype Origin = Prompted | Steered | Followed | Modelled | Guarded

  /** The queue that pending messages of this origin came from. */
  function ChannelOf(origin: Origin): Channel {
    if origin == Followed then FollowUps else Steering
  }

  /** The messages of one origin, in order. */
  ghost function From(messages: seq<Message>, origins: seq<Origin>, origin: Origin): seq<Message>
    requires |messages| == |origins|
  {
    var n := |messages|;
    if n == 0 then [] else
      From(messages[..n - 1], origins[..n - 1], origin) + (if origins[n - 1] == origin then [messages[n - 1]] else [])
  }

  lemma FromExtend(messages: seq<Message>, origins: seq<Origin>, m: Message, o: Origin, origin: Origin)
    requires |messages| == |origins|
    ensures From(messages + [m], origins + [o], origin) ==
            From(messages, origins, origin) + if o == origin then [m] else []
  {
    assert (messages + [m])[..|messages|] == messages && (origins + [o])[..|origins|] == origins;
  }

  // ------------------------------------------------------------------ tool batches

  /** How the environment treats one call while it is prepared and, where that applies, driven. */
  datatype CallScript = CallScript(preparation: Preparation, replies: seq<Reply>)

  /** `Threw` and `Unfinished` stand for a batch that rejects and one that never settles. */
  datatype BatchResult = Batch(results: seq<Message>, terminate: bool) | Threw | Unfinished

  function ResultMessage(f: Finalized): Message {
    ToolResult(f.call.id, f.call.name, f.output.text, f.isError)
  }

  function Ids(calls: seq<ToolCall>): seq<string> {
    seq(|calls|, i requires 0 <= i < |calls| => calls[i].id)
  }

  lemma IdsExtend(calls: seq<ToolCall>, i: nat)
    requires i < |calls|
    ensures Ids(calls[..i + 1]) == Ids(calls[..i]) + [calls[i].id]
  {
  }

  /** `results` answer the first calls, one each, in source order. */
  ghost predicate Answers(calls: seq<ToolCall>, results: seq<Message>) {
    && |results| <= |calls|
    && forall i | 0 <= i < |results| ::
         results[i].ToolResult? && results[i].toolCallId == calls[i].id && results[i].toolName == calls[i].name
  }

  lemma AnswersAreResults(calls: seq<ToolCall>, results: seq<Message>)
    requires Answers(calls, results)
    ensures forall r | r in results :: r.ToolResult?
  {
  }

  /** Result number `i` is the report of call number `i`. */
  ghost predicate Reports(states: seq<CallState>, results: seq<Message>) {
    && |states| == |results|
    && forall i | 0 <= i < |states| :: states[i].phase.Done? && results[i] == ResultMessage(states[i].phase.finalized)
  }

  /** A batch ends the tool loop when it ran something and every result asked for the end. */
  ghost predicate AllTerminate(states: seq<CallState>) {
    states != [] && forall i | 0 <= i < |states| :: states[i].phase.Done? && states[i].phase.finalized.output.terminate
  }

  /** The ids of calls whose execution has started and whose end has not been emitted. */
  ghost function OpenCalls(states: seq<CallState>): multiset<string> {
    if states == [] then multiset{} else
      var last := states[|states| - 1];
      OpenCalls(states[..|states| - 1]) + (if Reported(last) then multiset{} else multiset{last.call.id})
  }

  lemma OpenCallsExtend(states: seq<CallState>, s: CallState)
    ensures OpenCalls(states + [s]) == OpenCalls(states) + if Reported(s) then multiset{} else multiset{s.call.id}
  {
    assert (states + [s])[..|states|] == states;
  }

  lemma {:induction false} OpenCallsUpdate(states: seq<CallState>, i: nat, s: CallState)
    requires i < |states| && s.call == states[i].call && (Reported(states[i]) ==> Reported(s))
    ensures OpenCalls(states[i := s]) ==
      if Reported(s) && !Reported(states[i]) then OpenCalls(states) - multiset{s.call.id} else OpenCalls(states)
  {
    hide Reported, OpenCalls;
    var n := |states| - 1;
    var front, last := states[..n], states[n];
    assert states == front + [last];
    OpenCallsExtend(front, last);
    if i == n {
      assert states[i := s] == front + [s];
      OpenCallsExtend(front, s);
    } else {
      OpenCallsUpdate(front, i, s);
      assert states[i := s] == front[i := s] + [last];
      OpenCallsExtend(front[i := s], last);
      if !Reported(states[i]) {
        SomeOpen(front, i);
        TakenFromFront(OpenCalls(front), if Reported(last) then multiset{} else multiset{last.call.id}, s.call.id);
      }
    }
  }

  lemma TakenFromFront(front: multiset<string>, rest: multiset<string>, id: string)
    requires id in front
    ensures front + rest - multiset{id} == front - multiset{id} + rest
  {
  }

  lemma OpenCallsNone()
    ensures OpenCalls([]) == multiset{}
  {
  }

  lemma {:induction false} AllReported(states: seq<CallState>)
    requires forall i | 0 <= i < |states| :: Reported(states[i])
    ensures OpenCalls(states) == multiset{}
  {
    if states != [] {
      AllReported(states[..|states| - 1]);
    }
  }

  predicate AllFinished(states: seq<CallState>) {
    forall i | 0 <= i < |states| :: states[i].Finished()
  }

  predicate NoneRejected(states: seq<CallState>) {
    forall i | 0 <= i < |states| :: !states[i].phase.Rejected?
  }

  predicate EveryOutputTerminates(states: seq<CallState>)
    requires AllFinished(states) && NoneRejected(states)
  {
    forall i | 0 <= i < |states| :: states[i].phase.finalized.output.terminate
  }

  lemma {:induction false} SomeOpen(states: seq<CallState>, i: nat)
    requires i < |states| && !Reported(states[i])
    ensures states[i].call.id in OpenCalls(states)
  {
    if i < |states| - 1 {
      SomeOpen(states[..|states| - 1], i);
    }
  }

  datatype BatchScript = BatchScript(calls: seq<CallScript>, steps: seq<(nat, Reply)>)

  // ------------------------------------------------------------------ what calls make of their replies

  /** What the gate shows after `k` awaits. */
  ghost function GateAt(outset: Outset, k: nat): Gate
    requires k <= |outset.tape|
  {
    var scope := ScopeAfter(outset.scope, Ops(outset.tape[..k]));
    Gate(scope.aborted, scope.Admits(), k)
  }

  /** The gate shows what other code has done by then. */
  ghost predicate Shown(outset: Outset, gate: Gate) {
    gate.at <= |outset.tape| && gate == GateAt(outset, gate.at)
  }

  ghost predicate AllShown(outset: Outset, gates: seq<Gate>) {
    forall i | 0 <= i < |gates| :: Shown(outset, gates[i])
  }

  /** What a run is set up with. */
  datatype Setup = Setup(cfg: Config, sequentialMode: bool, outset: Outset)

  /** The call has been prepared and has then moved as its replies say. */
  ghost predicate Plays(u: Setup, call: ToolCall, script: CallScript, s: CallState) {
    exists aborted: bool, gates: seq<Gate> | |gates| == |script.replies| && AllShown(u.outset, gates) ::
      s == Run(u.cfg, PreparedCall(u.cfg, call, script.preparation, aborted), Zip(gates, script.replies))
  }

  /** The call is about to take its place among others: it is over if preparation has settled it. */
  ghost predicate Begins(u: Setup, call: ToolCall, script: CallScript, s: CallState) {
    (exists aborted: bool ::
      s == PreparedCall(u.cfg, call, script.preparation, aborted) && !s.phase.AwaitPersist?) ||
    BeginsSettled(u, call, script, s)
  }

  ghost predicate BeginsSettled(u: Setup, call: ToolCall, script: CallScript, s: CallState) {
    exists aborted: bool, gates: seq<Gate> | |gates| == |script.replies| && AllShown(u.outset, gates) ::
      && PreparedCall(u.cfg, call, script.preparation, aborted).phase.AwaitPersist?
      && s == Run(u.cfg, PreparedCall(u.cfg, call, script.preparation, aborted), Zip(gates, script.replies))
  }

  /** Each call for itself, one after another. */
  ghost predicate AllPlay(u: Setup, calls: seq<ToolCall>, script: seq<CallScript>, states: seq<CallState>) {
    && |states| <= |script| && |states| <= |calls|
    && forall i | 0 <= i < |states| :: Plays(u, calls[i], script[i], states[i])
  }

  ghost predicate AllBegin(u: Setup, calls: seq<ToolCall>, script: seq<CallScript>, states: seq<CallState>) {
    && |states| <= |script| && |states| <= |calls|
    && forall i | 0 <= i < |states| :: Begins(u, calls[i], script[i], states[i])
  }

  /** All calls at once, in the order of their replies. */
  ghost predicate PlayTogether(u: Setup, calls: seq<ToolCall>, script: BatchScript, states: seq<CallState>) {
    exists begun: seq<CallState>, gates: seq<Gate> |
      AllBegin(u, calls, script.calls, begun) && |gates| == |script.steps| && AllShown(u.outset, gates) ::
      states == Interleaved(u.cfg, begun, script.steps, gates)
  }

  /** The calls of a batch have moved as the batch's script says. */
  ghost predicate Played(u: Setup, calls: seq<ToolCall>, script: BatchScript, states: seq<CallState>) {
    if InSequence(u.sequentialMode, script) then AllPlay(u, calls, script.calls, states)
    else PlayTogether(u, calls, script, states)
  }

  predicate InSequence(sequentialMode: bool, script: BatchScript) {
    sequentialMode || AnySequential(script.calls)
  }

  /** The calls of a batch, each somewhere in its life. */
  ghost predicate Live(cfg: Config, calls: seq<ToolCall>, states: seq<CallState>) {
    && |states| <= |calls|
    && forall i | 0 <= i < |states| :: CallOk(cfg, states[i]) && states[i].call == calls[i]
  }

  /** Every call of a settled batch is over: its lease is back and its report carries its own id. */
  ghost predicate AllDone(cfg: Config, calls: seq<ToolCall>, states: seq<CallState>) {
    Live(cfg, calls, states) && forall i | 0 <= i < |states| :: states[i].phase.Done?
  }

  /** No tool of the batch has been executed. */
  ghost predicate NoneStarted(states: seq<CallState>) {
    forall i | 0 <= i < |states| :: states[i].starts == 0
  }

  lemma {:induction false} NoStarts(states: seq<CallState>)
    requires NoneStarted(states)
    ensures StartsOf(states) == multiset{}
  {
    if states != [] {
      NoStarts(states[..|states| - 1]);
    }
  }

  /** What became of a batch: its calls are over, its results are their reports, and they followed the script. */
  ghost predicate BatchTold(u: Setup, calls: seq<ToolCall>, truncated: bool, script: BatchScript,
                            results: seq<Message>, states: seq<CallState>)
  {
    && AllDone(u.cfg, calls, states) && Reports(states, results)
    && (if truncated then NoneStarted(states) else calls != [] ==> Played(u, calls, script, states))
  }

  // ------------------------------------------------------------------ scripts that settle their calls

  /** The replies bring the call to its end, whatever the gate shows meanwhile. */
  ghost predicate SettlesCall(cfg: Config, call: ToolCall, script: CallScript) {
    forall aborted: bool, gates: seq<Gate> | |gates| == |script.replies| ::
      Run(cfg, PreparedCall(cfg, call, script.preparation, aborted), Zip(gates, script.replies)).phase.Done?
  }

  /** The replies bring the call to its end if preparation has settled it. */
  ghost predicate SettlesPrepared(cfg: Config, call: ToolCall, script: CallScript) {
    forall aborted: bool, gates: seq<Gate> | |gates| == |script.replies| ::
      PreparedCall(cfg, call, script.preparation, aborted).phase.AwaitPersist? ==>
        Run(cfg, PreparedCall(cfg, call, script.preparation, aborted), Zip(gates, script.replies)).phase.Done?
  }

  /** However many of the calls get started, and whatever the gate shows, the steps bring them all to their end. */
  ghost predicate SettlesTogether(u: Setup, calls: seq<ToolCall>, script: BatchScript) {
    forall begun: seq<CallState>, gates: seq<Gate> |
      AllBegin(u, calls, script.calls, begun) && |gates| == |script.steps| ::
      AllOver(Interleaved(u.cfg, begun, script.steps, gates))
  }

  ghost predicate AllOver(states: seq<CallState>) {
    forall i | 0 <= i < |states| :: states[i].phase.Done?
  }

  /** The script has what it takes to settle the batch. */
  ghost predicate SettlesBatch(u: Setup, calls: seq<ToolCall>, truncated: bool, script: BatchScript) {
    && |calls| <= |script.calls|
    && if truncated then forall i | 0 <= i < |calls| :: Persists(script.calls[i].replies)
       else if InSequence(u.sequentialMode, script)
       then forall i | 0 <= i < |calls| :: SettlesCall(u.cfg, calls[i], script.calls[i])
       else SettlesTogether(u, calls, script) &&
            forall i | 0 <= i < |calls| :: SettlesPrepared(u.cfg, calls[i], script.calls[i])
  }

  /** As before, if there is anything to settle. */
  ghost predicate SettlesCalls(u: Setup, calls: seq<ToolCall>, truncated: bool, script: BatchScript) {
    calls == [] || SettlesBatch(u, calls, truncated, script)
  }

  predicate Persists(replies: seq<Reply>) {
    |replies| >= 2 && replies[0] != Reject && replies[1] != Reject
  }

  /** The usual replies settle a call that is executed by itself. */
  lemma UsualSettles(cfg: Config, call: ToolCall, script: CallScript, lease: nat, output: Output)
    requires script.replies == UsualReplies(lease, output)
    ensures SettlesCall(cfg, call, script) && SettlesPrepared(cfg, call, script)
  {
    forall aborted: bool, gates: seq<Gate> | |gates| == |script.replies|
      ensures Run(cfg, PreparedCall(cfg, call, script.preparation, aborted), Zip(gates, script.replies)).phase.Done?
    {
      UsualRepliesSettle(cfg, call, script.preparation, aborted, gates, lease, output);
    }
  }

  /** Interleaved in any way, the usual replies settle calls that are executed together. */
  lemma UsualSettleTogether(u: Setup, calls: seq<ToolCall>, script: BatchScript, lease: nat, output: Output)
    requires |calls| <= |script.calls|
    requires forall i | 0 <= i < |calls| ::
      script.calls[i].replies == RepliesTo(i, script.steps) == UsualReplies(lease, output)
    ensures SettlesBatch(u, calls, false, script)
  {
    forall i | 0 <= i < |calls|
      ensures SettlesCall(u.cfg, calls[i], script.calls[i]) && SettlesPrepared(u.cfg, calls[i], script.calls[i])
    {
      UsualSettles(u.cfg, calls[i], script.calls[i], lease, output);
    }
    hide SettlesCall, SettlesPrepared, Interleaved, RepliesTo, UsualReplies;
    forall begun: seq<CallState>, gates: seq<Gate> |
      AllBegin(u, calls, script.calls, begun) && |gates| == |script.steps|
      ensures AllOver(Interleaved(u.cfg, begun, script.steps, gates))
    {
      forall i | 0 <= i < |begun| ensures Interleaved(u.cfg, begun, script.steps, gates)[i].phase.Done? {
        InterleavedIsOwn(u.cfg, begun, script.steps, gates, i);
        OwnIsZip(i, script.steps, gates);
        BegunIsSettled(u, calls[i], script.calls[i], begun[i], GatesOf(i, script.steps, gates), lease, output);
      }
    }
  }

  lemma BegunIsSettled(u: Setup, call: ToolCall, script: CallScript, s: CallState, gates: seq<Gate>, lease: nat,
                       output: Output)
    requires Begins(u, call, script, s) && SettlesPrepared(u.cfg, call, script)
    requires |gates| == |UsualReplies(lease, output)|
    ensures Run(u.cfg, s, Zip(gates, UsualReplies(lease, output))).phase.Done?
  {
    hide Run, PreparedCall, Zip, UsualReplies;
    if BeginsSettled(u, call, script, s) {
      BeginsToTheEnd(u, call, script, s);
      RunFinished(u.cfg, s, Zip(gates, UsualReplies(lease, output)));
    } else {
      var aborted: bool :| s == PreparedCall(u.cfg, call, script.preparation, aborted) && !s.phase.AwaitPersist?;
      UsualRepliesSettle(u.cfg, call, script.preparation, aborted, gates, lease, output);
    }
  }

  lemma RunNothing(cfg: Config, s: CallState, replies: seq<Reply>)
    ensures s == Run(cfg, s, Zip([], replies[..0]))
  {
  }

  /** One more reply under one more gate. */
  lemma RunOnce(cfg: Config, s: CallState, gates: seq<Gate>, replies: seq<Reply>, gate: Gate)
    requires |gates| < |replies|
    ensures var k := |gates|;
      Run(cfg, s, Zip(gates + [gate], replies[..k + 1])) ==
      Step(cfg, gate, Run(cfg, s, Zip(gates, replies[..k])), replies[k])
  {
    var k := |gates|;
    assert Zip(gates + [gate], replies[..k + 1]) == Zip(gates, replies[..k]) + [(gate, replies[k])];
    RunExtend(cfg, s, Zip(gates, replies[..k]), gate, replies[k]);
  }

  /** The replies left over when a call is over make no difference. */
  lemma RunRest(cfg: Config, s: CallState, gates: seq<Gate>, replies: seq<Reply>, gate: Gate)
    requires |gates| <= |replies|
    requires |gates| < |replies| ==> Run(cfg, s, Zip(gates, replies[..|gates|])).Finished()
    ensures var all := gates + seq(|replies| - |gates|, _ => gate);
      Run(cfg, s, Zip(all, replies)) == Run(cfg, s, Zip(gates, replies[..|gates|]))
  {
    var k := |gates|;
    var rest := seq(|replies| - k, _ => gate);
    assert Zip(gates + rest, replies) == Zip(gates, replies[..k]) + Zip(rest, replies[k..]);
    RunAppend(cfg, s, Zip(gates, replies[..k]), Zip(rest, replies[k..]));
    if k < |replies| {
      RunFinished(cfg, Run(cfg, s, Zip(gates, replies[..k])), Zip(rest, replies[k..]));
    } else {
      assert Zip(rest, replies[k..]) == [];
    }
  }

  /** Records of one step after another are the record of both. */
  lemma Balance(a: multiset<nat>, x: multiset<nat>, b: multiset<nat>, y: multiset<nat>, c: multiset<nat>, z: multiset<nat>)
    requires a + x == b + y && c + y == a + z
    ensures c + x == b + z
  {
    forall e ensures (c + x)[e] == (b + z)[e] {
      assert (a + x)[e] == (b + y)[e] && (c + y)[e] == (a + z)[e];
    }
  }

  /** One entry of a record is exchanged for another. */
  lemma Exchange(a: multiset<nat>, x: multiset<nat>, b: multiset<nat>, p: multiset<nat>, q: multiset<nat>, y: multiset<nat>)
    requires b + p == a + q && y + p == x + q
    ensures b + x == a + y
  {
    forall e ensures (b + x)[e] == (a + y)[e] {
      assert (b + p)[e] == (a + q)[e] && (y + p)[e] == (x + q)[e];
    }
  }

  lemma Associate(a: multiset<nat>, b: multiset<nat>, c: multiset<nat>)
    ensures a + b + c == a + (b + c)
  {
  }

  lemma NothingDone(u: Setup, calls: seq<ToolCall>, script: seq<CallScript>)
    ensures AllDone(u.cfg, calls, []) && Reports([], []) && Answers(calls, []) && AllPlay(u, calls, script, [])
    ensures StartsOf([]) == multiset{}
  {
  }

  /** One more call of a batch is over and reported. */
  lemma OneMoreDone(cfg: Config, calls: seq<ToolCall>, states: seq<CallState>, results: seq<Message>, s: CallState)
    requires AllDone(cfg, calls, states) && Reports(states, results) && Answers(calls, results)
    requires |states| < |calls| && CallOk(cfg, s) && s.phase.Done? && s.call == calls[|states|]
    ensures var result := ResultMessage(s.phase.finalized);
      && AllDone(cfg, calls, states + [s]) && Reports(states + [s], results + [result])
      && Answers(calls, results + [result])
  {
    DoneIs(cfg, s);
    hide CallOk;
  }

  lemma OneMorePlays(u: Setup, calls: seq<ToolCall>, script: seq<CallScript>, states: seq<CallState>, s: CallState)
    requires AllPlay(u, calls, script, states) && |states| < |calls| && |states| < |script|
    requires Plays(u, calls[|states|], script[|states|], s)
    ensures AllPlay(u, calls, script, states + [s])
  {
    hide Plays;
  }

  lemma DoneIs(cfg: Config, s: CallState)
    requires CallOk(cfg, s)
    ensures s.phase.Done? ==> s.phase.finalized.call == s.call && Reported(s)
  {
  }

  lemma NoCalls()
    ensures StartsOf([]) == multiset{}
  {
  }

  lemma NoSteps(cfg: Config, states: seq<CallState>, steps: seq<(nat, Reply)>)
    ensures states == Interleaved(cfg, states, steps[..0], [])
  {
  }

  lemma OneMoreStep(cfg: Config, states: seq<CallState>, steps: seq<(nat, Reply)>, gates: seq<Gate>, gate: Gate)
    requires |gates| < |steps|
    ensures var k, i := |gates|, steps[|gates|].0;
      var before := Interleaved(cfg, states, steps[..k], gates);
      Interleaved(cfg, states, steps[..k + 1], gates + [gate]) ==
      if i < |states| then before[i := Step(cfg, gate, before[i], steps[k].1)] else before
  {
    var k := |gates|;
    assert steps[..k + 1][..k] == steps[..k] && (gates + [gate])[..k] == gates;
    hide Step;
  }

  lemma OverIsFinished(states: seq<CallState>)
    requires AllOver(states)
    ensures AllFinished(states) && NoneRejected(states)
  {
  }

  lemma PlaysToTheEnd(u: Setup, call: ToolCall, script: CallScript, s: CallState)
    requires Plays(u, call, script, s) && SettlesCall(u.cfg, call, script)
    ensures s.phase.Done?
  {
    hide Run, PreparedCall, Zip;
  }

  lemma BeginsToTheEnd(u: Setup, call: ToolCall, script: CallScript, s: CallState)
    requires BeginsSettled(u, call, script, s) && SettlesPrepared(u.cfg, call, script)
    ensures s.phase.Done?
  {
    hide Run, PreparedCall, Zip;
  }

  predicate AnySequential(script: seq<CallScript>) {
    exists i :: 0 <= i < |script| && script[i].preparation.binding.Some? &&
        script[i].preparation.binding.value.sequential
  }

  // ------------------------------------------------------------------ provider streams

  type AssistantMessage = m: Message | m.Assistant? witness Assistant([], Stop, None, false)

  /** A block of a response and its content index. */
  datatype Item = Item(index: nat, block: Block)

  datatype StreamEvent = Start(partial: AssistantMessage) | Delta(partial: AssistantMessage, completed: Option<Item>)

  /** `retryable` tells whether a failed response counts as a transient failure. */
  datatype StreamScript = StreamScript(events: seq<StreamEvent>, final: AssistantMessage, retryable: bool) {
    /** A transient failure after completed output. */
    predicate Recoverable() {
      final.stopReason == Failure && retryable && SplitFailure(final, events).checkpoint.Some?
    }

    /**
      What becomes of the response. Only in a run that is `shut`, cancelled or inactive, may it be
      anything but the provider's final message, or completed output be given up.
     */
    ghost predicate Yields(r: Streamed, shut: bool) {
      if r.checkpoint.Some? then Recoverable() && r == SplitFailure(final, events) else
        && (Recoverable() ==> shut)
        && (r.message == final ||
            (shut && (r.message == ABORTED_MESSAGE || (final.stopReason == Failure && r.message == Cancelled(final)))))
    }
  }

  function Cancelled(m: AssistantMessage): AssistantMessage {
    m.(stopReason := Aborted, errorMessage := Some("Operation aborted"))
  }

  function Interruption(m: AssistantMessage): AssistantMessage {
    m.(stopReason := Aborted, errorMessage := Some("Interrupted response recovery stopped"))
  }

  ghost function Starts(events: seq<StreamEvent>): nat {
    if events == [] then 0 else
      Starts(events[..|events| - 1]) + (if events[|events| - 1].Start? then 1 else 0)
  }

  const ABORTED_MESSAGE: AssistantMessage := Assistant([Text("")], Aborted, Some("Operation aborted"), false)

  /** The blocks the provider declared complete; a later declaration for an index replaces an earlier one. */
  function CompletedBlocks(events: seq<StreamEvent>): map<nat, Block> {
    if events == [] then map[] else
      var front := CompletedBlocks(events[..|events| - 1]);
      var last := events[|events| - 1];
      if last.Delta? && last.completed.Some? then front[last.completed.value.index := last.completed.value.block]
          else front
  }

  function IndexLimit(events: seq<StreamEvent>): nat {
    if events == [] then 0 else
      var front := IndexLimit(events[..|events| - 1]);
      var last := events[|events| - 1];
      if last.Delta? && last.completed.Some? &&
          last.completed.value.index >= front then last.completed.value.index + 1 else front
  }

  /** Completed blocks below `limit`, ascending by content index. */
  function InOrder(blocks: map<nat, Block>, limit: nat): seq<Item> {
    if limit == 0 then [] else
      var front := InOrder(blocks, limit - 1);
      if limit - 1 in blocks then front + [Item(limit - 1, blocks[limit - 1])] else front
  }

  function WithoutTrailingThinking(items: seq<Item>): seq<Item> {
    if items != [] && items[|items| - 1].block.Thinking? then WithoutTrailingThinking(items[..|items| - 1]) else items
  }

  function BlocksOf(items: seq<Item>): seq<Block> {
    seq(|items|, i requires 0 <= i < |items| => items[i].block)
  }

  /** The content that is not kept, by index. */
  function Rest(content: seq<Block>, kept: set<nat>, from: nat): seq<Block>
    requires from <= |content|
    decreases |content| - from
  {
    if from == |content| then [] else
      (if from in kept then [] else [content[from]]) + Rest(content, kept, from + 1)
  }

  /** What a transiently failed response leaves behind: completed work to keep, and the failure itself. */
  datatype Streamed = Streamed(message: AssistantMessage, checkpoint: Option<AssistantMessage>)

  function SplitFailure(final: AssistantMessage, events: seq<StreamEvent>): (r: Streamed)
    ensures r.message.stopReason == final.stopReason && r.message.errorMessage == final.errorMessage
    ensures r.checkpoint.Some? ==> r.checkpoint.value.isCheckpoint
  {
    var kept := WithoutTrailingThinking(InOrder(CompletedBlocks(events), IndexLimit(events)));
    if kept == [] then Streamed(final, None)
    else
      var content := BlocksOf(kept);
      var indexes := set item | item in kept :: item.index;
      Streamed(
        final.(content := Rest(final.content, indexes, 0)),
        Some(Assistant(content, if CallsOf(content) != [] then ToolUse else Stop, None, true)))
  }

  lemma {:induction false} InOrderAscends(blocks: map<nat, Block>, limit: nat)
    ensures forall i | 0 <= i < |InOrder(blocks, limit)| ::
      var item := InOrder(blocks, limit)[i];
      item.index < limit && item.index in blocks && blocks[item.index] == item.block
    ensures forall i, j | 0 <= i < j < |InOrder(blocks, limit)| ::
      InOrder(blocks, limit)[i].index < InOrder(blocks, limit)[j].index
    ensures forall k | k in blocks && k < limit :: Item(k, blocks[k]) in InOrder(blocks, limit)
  {
    if limit > 0 {
      InOrderAscends(blocks, limit - 1);
    }
  }

  lemma {:induction false} LimitCovers(events: seq<StreamEvent>)
    ensures forall k | k in CompletedBlocks(events) :: k < IndexLimit(events)
  {
    if events != [] {
      LimitCovers(events[..|events| - 1]);
    }
  }

  lemma {:induction false} TrimmedIsPrefix(items: seq<Item>)
    ensures var kept := WithoutTrailingThinking(items);
      && kept <= items
      && (kept != [] ==> !kept[|kept| - 1].block.Thinking?)
      && (forall i | |kept| <= i < |items| :: items[i].block.Thinking?)
  {
    if items != [] && items[|items| - 1].block.Thinking? {
      TrimmedIsPrefix(items[..|items| - 1]);
    }
  }

  /**
    A checkpoint keeps the completed blocks in content order, never ends in reasoning, and drops
    nothing but trailing reasoning.
   */
  lemma CheckpointKeepsCompleted(final: AssistantMessage, events: seq<StreamEvent>)
    ensures var s := SplitFailure(final, events); s.checkpoint.Some? ==>
      && s.checkpoint.value.content != []
      && !s.checkpoint.value.content[|s.checkpoint.value.content| - 1].Thinking?
      && s.checkpoint.value.stopReason in {Stop, ToolUse}
    ensures forall k | k in CompletedBlocks(events) && !CompletedBlocks(events)[k].Thinking? ::
      var s := SplitFailure(final, events);
      s.checkpoint.Some? && CompletedBlocks(events)[k] in s.checkpoint.value.content
  {
    hide CompletedBlocks, IndexLimit, InOrder, WithoutTrailingThinking, Rest, CallsOf;
    var blocks := CompletedBlocks(events);
    var items := InOrder(blocks, IndexLimit(events));
    var kept := WithoutTrailingThinking(items);
    InOrderAscends(blocks, IndexLimit(events));
    LimitCovers(events);
    TrimmedIsPrefix(items);
    forall k | k in blocks && !blocks[k].Thinking?
      ensures kept != [] && blocks[k] in BlocksOf(kept)
    {
      var i :| 0 <= i < |items| && items[i] == Item(k, blocks[k]);
      assert i < |kept|;
      assert BlocksOf(kept)[i] == blocks[k];
    }
  }

  // ------------------------------------------------------------------ turns

  /** Everything hooks, provider and tools contribute to one turn. */
  datatype TurnScript = TurnScript(
    nextContext: Option<seq<Message>>, requestContext: Option<seq<Message>>, stream: StreamScript,
    recovery: BatchScript, batch: BatchScript, stop: bool)
  {
    /** If completed output has to be kept, the script settles its calls. */
    ghost predicate Recovers(u: Setup) {
      stream.Recoverable() ==>
        var calls := CallsOf(SplitFailure(stream.final, stream.events).checkpoint.value.content);
        SettlesCalls(u, calls, false, recovery)
    }

    /** The script settles all tool calls the turn may execute. */
    ghost predicate Settles(u: Setup) {
      var calls := CallsOf(stream.final.content);
      && Recovers(u)
      && SettlesCalls(u, calls, stream.final.stopReason == Length, batch)
    }
  }

  /** The turns settle all their tool calls, so there is nothing that could keep the run from going on. */
  ghost predicate AllSettle(turns: seq<TurnScript>, u: Setup) {
    forall i | 0 <= i < |turns| :: turns[i].Settles(u)
  }

  const STOP_MESSAGE: AssistantMessage :=
    Assistant([Text("Stopped: no progress.")], Failure, Some("Stopped: no progress."), false)

  /** `Interrupted` stands for a run that threw, or whose environment has not answered yet. */
  datatype Status = Running | Finished | Interrupted

  /** What the no-progress guard sees of a completed turn; `more` if the model is to answer its results. */
  ghost function MarkOf(message: AssistantMessage, results: seq<Message>, more: bool): Mark {
    if more && forall r | r in results :: r.ToolResult? then Turn(FingerprintOf(message, results)) else Reset
  }

  /**
    What a turn adds to the conversation: a response, its answers, and what had to be recovered first;
    `more` if it asks for another turn, `stuck` if the guard ended the run after it. `request` tells how
    many awaits preceded the request, if there was one, and `redone` and `calls` are what became of the
    tool calls behind `recovered` and `results`.
   */
  datatype TurnBlock = TurnBlock(
    request: Option<nat>, checkpoint: Option<Message>, recovered: seq<Message>, redone: seq<CallState>,
    message: AssistantMessage, results: seq<Message>, calls: seq<CallState>, more: bool, stuck: bool)
  {
    function Response(): seq<Message> {
      if checkpoint.Some? then [checkpoint.value] + recovered + [message] else [message]
    }

    function Flat(): seq<Message> {
      Response() + results + if stuck then [STOP_MESSAGE] else []
    }

    predicate Failed() {
      message.stopReason == Failure || message.stopReason == Aborted
    }

    /** The response is what the provider's stream yields; a recovered failure may be shown as interrupted. */
    ghost predicate Delivers(script: StreamScript, shut: bool) {
      if checkpoint.None? then script.Yields(Streamed(message, None), shut) else
        var split := SplitFailure(script.final, script.events);
        && script.Recoverable() && checkpoint == split.checkpoint
        && message in {split.message, Interruption(split.message)}
    }

    /** The request and the tool executions of the turn, each by the number of awaits before it. */
    ghost function Effects(): multiset<nat> {
      (if request.Some? then multiset{request.value} else multiset{}) + StartsOf(redone) + StartsOf(calls)
    }

    ghost predicate OnRecord(cfg: Config) {
      && (forall i | 0 <= i < |redone| :: CallOk(cfg, redone[i]))
      && (forall i | 0 <= i < |calls| :: CallOk(cfg, calls[i]))
    }

    /** The calls of completed output were executed as scripted. */
    ghost predicate Redoes(t: TurnScript, u: Setup) {
      if checkpoint.None? then redone == [] else
        && checkpoint.value.Assistant?
        && BatchTold(u, CallsOf(checkpoint.value.content), false, t.recovery, recovered, redone)
    }

    /** The calls of the response were executed as scripted, or refused if it was cut off. */
    ghost predicate Does(t: TurnScript, u: Setup) {
      if Failed() then calls == [] else
        BatchTold(u, CallsOf(message.content), message.stopReason == Length, t.batch, results, calls)
    }

    /** What `turn_end` reports. */
    function Report(): TurnReport {
      TurnReport(message, if Failed() then recovered else results)
    }

    predicate Requested() {
      checkpoint.Some? || message != ABORTED_MESSAGE
    }

    ghost function Marks(): seq<Mark> {
      if Failed() then [] else [MarkOf(message, results, more)]
    }

    /** Completed output is kept only of failed responses, and its calls are answered like any others. */
    ghost predicate Recovers(aborted: bool) {
      if checkpoint.None? then recovered == [] else
        && Failed() && checkpoint.value.Assistant? && checkpoint.value.isCheckpoint
        && Answers(CallsOf(checkpoint.value.content), recovered)
        && (|recovered| < |CallsOf(checkpoint.value.content)| ==> aborted)
    }

    /** Every call of a response that did not fail is answered, in source order, unless the run was aborted. */
    ghost predicate Answered(aborted: bool) {
      if Failed() then results == [] && !more && !stuck else
        && (more ==> CallsOf(message.content) != [])
        && Answers(CallsOf(message.content), results)
        && (|results| < |CallsOf(message.content)| ==> aborted)
    }
  }

  /** What precedes the request of a turn: a context from a hook, injected messages, and another hook's context. */
  datatype Opening = Opening(
    nextContext: Option<seq<Message>>, channel: Channel, injected: seq<Message>, requestContext: Option<seq<Message>>)
  {
    function ContextFrom(context: seq<Message>): seq<Message> {
      requestContext.GetOr(nextContext.GetOr(context) + injected)
    }

    /** The contexts are those of the turn's hooks; in one-at-a-time mode one whole group is injected. */
    ghost predicate Opens(t: TurnScript, first: bool, outset: Outset) {
      && nextContext == (if first then None else t.nextContext) && requestContext == t.requestContext
      && outset.OneGroup(channel, injected)
    }
  }

  /** `effects` tells, for each request and tool execution of the turn, how many awaits preceded it. */
  datatype StoryStep = StoryStep(opening: Opening, block: TurnBlock, effects: seq<nat>) {
    /** The turn is the scripted one; there is no response of the provider without a request. */
    ghost predicate Scripted(t: TurnScript, first: bool, u: Setup, shut: bool) {
      && opening.Opens(t, first, u.outset) && block.Delivers(t.stream, shut)
      && block.Redoes(t, u) && block.Does(t, u) && (block.Requested() ==> block.request.Some?)
    }

    /** The effects are the request, if any, and one for each tool that was executed, at the moment it began. */
    ghost predicate OnRecord(cfg: Config) {
      Bag(effects) == block.Effects() && block.OnRecord(cfg)
    }
  }

  /** Every request and every tool execution of these turns is among their effects, and nothing else is. */
  ghost predicate OnRecord(story: seq<StoryStep>, cfg: Config) {
    forall i | 0 <= i < |story| :: story[i].OnRecord(cfg)
  }

  /** What the guard sees before a response: injected messages start it afresh. */
  ghost function MarksBefore(injected: seq<Message>): seq<Mark> {
    if injected == [] then [] else [Reset]
  }

  /** What the guard sees of a run of turns. */
  ghost function Marks(story: seq<StoryStep>): seq<Mark> {
    if story == [] then [] else
      var last := story[|story| - 1];
      Marks(story[..|story| - 1]) + (MarksBefore(last.opening.injected) + last.block.Marks())
  }

  ghost predicate EndsStuck(story: seq<StoryStep>) {
    story != [] && story[|story| - 1].block.stuck
  }

  /** The second turn repeats the actions and outcomes of the first, and nobody said anything in between. */
  ghost predicate Repeated(first: StoryStep, second: StoryStep) {
    && second.opening.injected == [] && !first.block.Failed() && !second.block.Failed()
    && first.block.Marks() == second.block.Marks() && first.block.Marks()[0].Turn?
  }

  ghost predicate ThirdInARow(story: seq<StoryStep>, i: nat)
    requires i < |story|
  {
    i > 1 && Repeated(story[i - 2], story[i - 1]) && Repeated(story[i - 1], story[i])
  }

  /** The guard ends a run after the third equal turn in a row, and at no other time. */
  ghost predicate GuardExact(story: seq<StoryStep>) {
    forall i | 0 <= i < |story| :: story[i].block.stuck <==> ThirdInARow(story, i)
  }

  /** The messages a run of turns adds. */
  ghost function Told(story: seq<StoryStep>): seq<Message> {
    if story == [] then [] else
      var last := story[|story| - 1];
      Told(story[..|story| - 1]) + (last.opening.injected + last.block.Flat())
  }

  /** The effects a run of turns starts. */
  ghost function Started(story: seq<StoryStep>): seq<nat> {
    if story == [] then [] else Started(story[..|story| - 1]) + story[|story| - 1].effects
  }

  /** What a run of turns makes of a context. */
  ghost function ContextAfter(context: seq<Message>, story: seq<StoryStep>): seq<Message> {
    if story == [] then context else
      var last := story[|story| - 1];
      last.opening.ContextFrom(ContextAfter(context, story[..|story| - 1])) + last.block.Flat()
  }

  /** Where no hook replaces it, the context gains what the run adds. */
  lemma {:induction false} ContextKept(context: seq<Message>, story: seq<StoryStep>)
    requires forall i | 0 <= i < |story| :: story[i].opening.nextContext.None? && story[i].opening.requestContext.None?
    ensures ContextAfter(context, story) == context + Told(story)
  {
    hide TurnBlock.Flat;
    if story == [] {
      assert context + [] == context;
    } else {
      var n := |story| - 1;
      ContextKept(context, story[..n]);
      assert story[n].opening.nextContext.None? && story[n].opening.requestContext.None?;
      KeptTurn(context, Told(story[..n]), story[n]);
    }
  }

  lemma KeptTurn(context: seq<Message>, told: seq<Message>, step: StoryStep)
    requires step.opening.nextContext.None? && step.opening.requestContext.None?
    ensures step.opening.ContextFrom(context + told) + step.block.Flat() ==
            context + (told + (step.opening.injected + step.block.Flat()))
  {
    hide TurnBlock.Flat;
    Reassociate(context, told, step.opening.injected, step.block.Flat());
  }

  /** The turns are the scripted ones, one after another. */
  ghost predicate Follows(story: seq<StoryStep>, turns: seq<TurnScript>, prompted: bool, u: Setup, shut: bool) {
    && |story| <= |turns|
    && forall i | 0 <= i < |story| :: story[i].Scripted(turns[i], prompted && i == 0, u, shut)
  }

  /** All calls of all responses are answered as they should be. */
  ghost predicate Sound(story: seq<StoryStep>, aborted: bool) {
    forall i | 0 <= i < |story| :: story[i].block.Recovers(aborted) && story[i].block.Answered(aborted)
  }

  /** No turn of the story has ended the run. */
  ghost predicate Ongoing(story: seq<StoryStep>) {
    forall i | 0 <= i < |story| :: !story[i].block.Failed() && !story[i].block.stuck
  }

  /** No turn of the story, and no hook after one, has ended the run. */
  ghost predicate Going(story: seq<StoryStep>, turns: seq<TurnScript>) {
    |story| <= |turns| && Ongoing(story) && forall i | 0 <= i < |story| :: !turns[i].stop
  }

  /** The last turn at most has ended the run. */
  ghost predicate Over(story: seq<StoryStep>, turns: seq<TurnScript>) {
    story != [] && Going(story[..|story| - 1], turns)
  }

  /** A story whose last turn at most has ended the run. */
  ghost predicate Complete(story: seq<StoryStep>, aborted: bool) {
    story != [] && Sound(story, aborted) && Ongoing(story[..|story| - 1])
  }

  lemma PlainBlock(b: TurnBlock, aborted: bool)
    requires b.checkpoint == None && b.recovered == []
    ensures b.Recovers(aborted) && b.Response() == [b.message]
  {
  }

  lemma RecoveredBlock(b: TurnBlock, c: AssistantMessage, before: bool, aborted: bool)
    requires b.checkpoint == Some(c) && c.isCheckpoint && b.Failed() && (before ==> aborted)
    requires Answers(CallsOf(c.content), b.recovered) && (|b.recovered| < |CallsOf(c.content)| ==> before)
    ensures b.Recovers(aborted) && b.Response() == [c] + b.recovered + [b.message]
  {
    hide Answers;
  }

  lemma FailedBlock(b: TurnBlock, before: bool, aborted: bool)
    requires b.Failed() && b.results == [] && !b.more && !b.stuck && b.Recovers(before) && (before ==> aborted)
    ensures b.Flat() == b.Response() && b.Recovers(aborted) && b.Answered(aborted) && b.Marks() == []
  {
    hide Answers, TurnBlock.Response;
  }

  lemma FinishBlock(messages: seq<Message>, context: seq<Message>, response: TurnBlock, b: TurnBlock,
                    before: bool, aborted: bool)
    requires b == response.(results := b.results, calls := b.calls, more := b.more, stuck := b.stuck)
    requires !b.Failed() && response.Recovers(before) && (b.more ==> CallsOf(b.message.content) != [])
    requires Answers(CallsOf(b.message.content), b.results)
    requires |b.results| < |CallsOf(b.message.content)| ==> aborted
    ensures b.Recovers(aborted) && b.Answered(aborted) && b.Marks() == [MarkOf(b.message, b.results, b.more)]
    ensures var rest := b.results + if b.stuck then [STOP_MESSAGE] else [];
      && messages + response.Response() + rest == messages + b.Flat()
      && context + response.Response() + rest == context + b.Flat()
  {
    hide MarkOf, Answers;
  }

  lemma YieldsRefusal(script: StreamScript)
    ensures script.Yields(Streamed(ABORTED_MESSAGE, None), true)
  {
  }

  lemma YieldsStays(script: StreamScript, r: Streamed, before: bool, after: bool)
    requires script.Yields(r, before) && (before ==> after)
    ensures script.Yields(r, after)
  {
    hide SplitFailure;
  }

  /** The block of a response keeps what the stream yielded, though the run may have been cancelled since. */
  lemma Delivered(b: TurnBlock, script: StreamScript, r: Streamed, before: bool, after: bool)
    requires script.Yields(r, before) && (before ==> after) && b.checkpoint == r.checkpoint
    requires if r.checkpoint.None? then b.message == r.message else b.message in {r.message, Interruption(r.message)}
    ensures b.Delivers(script, after)
  {
    hide SplitFailure;
  }

  /** A response that did not fail is the final message of the stream, so its calls are those the script settles. */
  lemma DeliveredSettles(b: TurnBlock, t: TurnScript, u: Setup, shut: bool)
    requires b.Delivers(t.stream, shut) && !b.Failed()
    ensures t.Settles(u) ==> SettlesCalls(u, CallsOf(b.message.content), b.message.stopReason == Length, t.batch)
  {
    hide SplitFailure, SettlesCalls, CallsOf;
  }

  lemma SettlesRecovers(t: TurnScript, u: Setup)
    ensures t.Settles(u) ==> t.Recovers(u)
  {
  }

  lemma YieldsRecover(t: TurnScript, u: Setup, r: Streamed, shut: bool)
    requires t.stream.Yields(r, shut) && t.Recovers(u) && r.checkpoint.Some?
    ensures SettlesCalls(u, CallsOf(r.checkpoint.value.content), false, t.recovery)
  {
    hide SplitFailure, SettlesCalls, CallsOf;
  }

  lemma SameRecovery(b: TurnBlock, c: TurnBlock, t: TurnScript, u: Setup)
    requires c == b.(results := c.results, calls := c.calls, more := c.more, stuck := c.stuck)
    ensures b.Redoes(t, u) == c.Redoes(t, u) && (b.calls == [] ==> c.Effects() == b.Effects() + StartsOf(c.calls))
  {
    hide BatchTold, CallsOf;
    NoCalls();
  }

  /** The tool calls of a response that did not fail have been answered. */
  lemma ToolsDone(b: TurnBlock, t: TurnScript, u: Setup)
    requires BatchTold(u, CallsOf(b.message.content), b.message.stopReason == Length, t.batch, b.results, b.calls)
    ensures !b.Failed() ==> b.Does(t, u) && b.Report() == TurnReport(b.message, b.results)
  {
    hide BatchTold, CallsOf;
  }

  /** A failed response has no tool calls to answer; its turn reports what was recovered. */
  lemma NoToolsDone(b: TurnBlock, t: TurnScript, u: Setup)
    requires b.Failed() && b.calls == []
    ensures b.Does(t, u) && b.Report() == TurnReport(b.message, b.recovered)
  {
  }

  lemma OnRecordToo(b: TurnBlock, c: TurnBlock, cfg: Config)
    requires b.OnRecord(cfg) && c.redone == b.redone && forall i | 0 <= i < |c.calls| :: CallOk(cfg, c.calls[i])
    ensures c.OnRecord(cfg)
  {
    hide CallOk;
  }

  lemma DeliversStays(b: TurnBlock, c: TurnBlock, script: StreamScript, before: bool, after: bool)
    requires b.Delivers(script, before) && (before ==> after)
    requires c == b.(results := c.results, calls := c.calls, more := c.more, stuck := c.stuck)
    ensures c.Delivers(script, after)
  {
    hide SplitFailure;
  }

  lemma FollowsStays(story: seq<StoryStep>, turns: seq<TurnScript>, prompted: bool, u: Setup,
                     before: bool, after: bool)
    requires Follows(story, turns, prompted, u, before) && (before ==> after)
    ensures Follows(story, turns, prompted, u, after)
  {
    hide Outset.OneGroup, BatchTold, TurnBlock.Delivers;
    forall i | 0 <= i < |story| ensures story[i].Scripted(turns[i], prompted && i == 0, u, after) {
      DeliversStays(story[i].block, story[i].block, turns[i].stream, before, after);
    }
  }

  lemma Reassociate<T>(a: seq<T>, b: seq<T>, c: seq<T>, d: seq<T>)
    ensures a + b + c + d == a + (b + c + d)
  {
  }

  lemma EmptyStory(aborted: bool)
    ensures Told([]) == [] && Sound([], aborted) && Ongoing([]) && Marks([]) == [] && !EndsStuck([])
  {
  }

  lemma SoundStays(story: seq<StoryStep>, before: bool, after: bool)
    requires Sound(story, before) && (before ==> after)
    ensures Sound(story, after)
  {
  }

  lemma {:induction false} StoryGrows(story: seq<StoryStep>, step: StoryStep, aborted: bool)
    requires Sound(story, aborted) && step.block.Recovers(aborted) && step.block.Answered(aborted)
    ensures Sound(story + [step], aborted)
    ensures Told(story + [step]) == Told(story) + (step.opening.injected + step.block.Flat())
    ensures Marks(story + [step]) == Marks(story) + (MarksBefore(step.opening.injected) + step.block.Marks())
    ensures EndsStuck(story + [step]) <==> step.block.stuck
    ensures forall c :: (var grown := step.opening.ContextFrom(ContextAfter(c, story)) + step.block.Flat();
      ContextAfter(c, story + [step]) == grown)
    ensures ReportsOf(story + [step]) == ReportsOf(story) + [step.block.Report()]
  {
    assert (story + [step])[..|story|] == story;
    hide TurnBlock.Recovers, TurnBlock.Answered, TurnBlock.Flat, TurnBlock.Marks, MarksBefore, TurnBlock.Report;
  }

  lemma GoingGrows(story: seq<StoryStep>, step: StoryStep, turns: seq<TurnScript>)
    requires Going(story, turns) && |story| < |turns|
    ensures Over(story + [step], turns)
    ensures !step.block.Failed() && !step.block.stuck && !turns[|story|].stop ==> Going(story + [step], turns)
  {
    assert (story + [step])[..|story|] == story;
  }

  lemma FollowsGrows(story: seq<StoryStep>, step: StoryStep, turns: seq<TurnScript>, prompted: bool, u: Setup,
                     shut: bool)
    requires Follows(story, turns, prompted, u, shut) && |story| < |turns|
    requires step.Scripted(turns[|story|], prompted && |story| == 0, u, shut)
    ensures Follows(story + [step], turns, prompted, u, shut)
  {
    hide StoryStep.Scripted;
  }

  lemma SplitLast(first: seq<StoryStep>, second: seq<StoryStep>)
    requires second != []
    ensures (first + second)[..|first + second| - 1] == first + second[..|second| - 1]
    ensures (first + second)[|first + second| - 1] == second[|second| - 1]
  {
  }

  lemma {:induction false} MarksJoin(first: seq<StoryStep>, second: seq<StoryStep>)
    ensures Marks(first + second) == Marks(first) + Marks(second)
  {
    hide TurnBlock.Marks, MarksBefore;
    if second == [] {
      assert first + second == first;
    } else {
      var n := |second| - 1;
      MarksJoin(first, second[..n]);
      SplitLast(first, second);
      Regroup(Marks(first), Marks(second[..n]), MarksBefore(second[n].opening.injected) + second[n].block.Marks());
    }
  }

  /** The mark of the last turn comes last, after a reset if messages were injected before it. */
  lemma {:induction false} LastMark(story: seq<StoryStep>)
    requires story != [] && !story[|story| - 1].block.Failed()
    ensures var n, all := |story| - 1, Marks(story);
      && all != [] && [all[|all| - 1]] == story[n].block.Marks()
      && if story[n].opening.injected == [] then all[..|all| - 1] == Marks(story[..n])
         else |all| > 1 && all[|all| - 2] == Reset
  {
    hide MarkOf;
    var last := story[|story| - 1];
    var before := Marks(story[..|story| - 1]) + MarksBefore(last.opening.injected);
    assert Marks(story) == before + last.block.Marks();
    assert (before + last.block.Marks())[..|before|] == before;
  }

  /** The history of marks is stuck exactly when the last three turns are equal and uninterrupted. */
  lemma {:induction false} StuckMeansRepeated(story: seq<StoryStep>)
    requires story != [] && forall i | 0 <= i < |story| :: !story[i].block.Failed()
    ensures Stuck(Marks(story)) <==> ThirdInARow(story, |story| - 1)
  {
    hide Marks, MarkOf, TurnBlock.Failed;
    var n, all := |story| - 1, Marks(story);
    LastMark(story);
    if n > 0 {
      var front := Marks(story[..n]);
      LastMark(story[..n]);
      assert story[n].opening.injected == [] ==> all[|all| - 2] == front[|front| - 1];
      if n > 1 {
        assert story[..n][..n - 1] == story[..n - 1];
        var start := Marks(story[..n - 1]);
        LastMark(story[..n - 1]);
        assert story[n].opening.injected == [] && story[n - 1].opening.injected == [] ==>
          all[|all| - 3] == front[|front| - 2] == start[|start| - 1];
        assert story[n].opening.injected == [] && story[n - 1].opening.injected != [] ==>
          all[|all| - 3] == front[|front| - 2] == Reset;
      } else {
        assert Marks([]) == [] by { EmptyStory(false); }
        assert story[..n][..0] == [];
      }
    } else {
      assert Marks([]) == [] by { EmptyStory(false); }
      assert story[..0] == [];
    }
  }

  lemma {:induction false} GuardSeesPrefix(story: seq<StoryStep>, k: nat, aborted: bool)
    requires Complete(story, aborted) && NeverStuckBefore(Marks(story)) && (EndsStuck(story) <==> Stuck(Marks(story)))
    requires k < |story|
    ensures !Stuck(Marks(story[..k]))
  {
    hide Stuck, Marks, MarkOf;
    var rest := story[k..];
    assert story[..k] + rest == story;
    MarksJoin(story[..k], rest);
    var seen := Marks(story[..k]);
    assert Marks(story)[..|seen|] == seen;
    if story[|story| - 1].block.Failed() {
      assert !EndsStuck(story);
      assert Marks(story)[..|Marks(story)|] == Marks(story);
    } else {
      LastMark(rest);
    }
  }

  lemma {:induction false} GuardSeesTurn(story: seq<StoryStep>, i: nat, aborted: bool)
    requires Complete(story, aborted) && NeverStuckBefore(Marks(story)) && (EndsStuck(story) <==> Stuck(Marks(story)))
    requires i < |story|
    ensures story[i].block.stuck <==> ThirdInARow(story, i)
  {
    hide Stuck, Marks, MarkOf, NeverStuckBefore, TurnBlock.Marks, TurnBlock.Recovers, Answers;
    if i < |story| - 1 {
      GuardSeesPrefix(story, i + 1, aborted);
      assert story[..|story| - 1][i] == story[i];
      assert forall j | 0 <= j <= i :: story[..|story| - 1][j] == story[j];
      StuckMeansRepeated(story[..i + 1]);
    } else if !story[i].block.Failed() {
      assert forall j | 0 <= j < i :: story[..|story| - 1][j] == story[j];
      StuckMeansRepeated(story);
    }
  }

  /** In a run whose guard saw all its turns, the guard fires after the third equal turn and at no other time. */
  lemma {:induction false} GuardSeesRun(story: seq<StoryStep>, aborted: bool)
    requires Complete(story, aborted) && NeverStuckBefore(Marks(story)) && (EndsStuck(story) <==> Stuck(Marks(story)))
    ensures GuardExact(story)
  {
    forall i | 0 <= i < |story| ensures story[i].block.stuck <==> ThirdInARow(story, i) {
      GuardSeesTurn(story, i, aborted);
    }
  }

  /** What the `turn_end` events of a run of turns report. */
  ghost function ReportsOf(story: seq<StoryStep>): seq<TurnReport> {
    if story == [] then [] else ReportsOf(story[..|story| - 1]) + [story[|story| - 1].block.Report()]
  }

  /** Where a run stands: result list, context, what its guard has seen, and what its turns have reported. */
  datatype Standing = Standing(
    messages: seq<Message>, context: seq<Message>, history: seq<Mark>, reports: seq<TurnReport>)

  /**
    What a run of turns makes of result list, context, guard history and reports, with all calls
    answered and every turn as scripted. The first turn of a `prompted` run has no hook before it.
   */
  ghost predicate Leads(before: Standing, story: seq<StoryStep>, after: Standing, turns: seq<TurnScript>,
                        prompted: bool, u: Setup, scope: Scope)
  {
    && after.messages == before.messages + Told(story) && after.context == ContextAfter(before.context, story)
    && after.reports == before.reports + ReportsOf(story)
    && after.history == before.history + Marks(story) && (EndsStuck(story) <==> Stuck(after.history))
    && Sound(story, scope.aborted) && Follows(story, turns, prompted, u, !scope.Admits())
  }

  lemma LeadsNowhere(now: Standing, turns: seq<TurnScript>, prompted: bool, u: Setup, scope: Scope)
    requires !Stuck(now.history)
    ensures Leads(now, [], now, turns, prompted, u, scope) && Going([], turns)
  {
    assert now.messages + [] == now.messages && now.history + [] == now.history && now.reports + [] == now.reports;
  }

  lemma LeadsStill(before: Standing, story: seq<StoryStep>, after: Standing, turns: seq<TurnScript>,
                   prompted: bool, u: Setup, was: Scope, scope: Scope)
    requires Leads(before, story, after, turns, prompted, u, was) && was.OnlyCancels(scope)
    ensures Leads(before, story, after, turns, prompted, u, scope)
  {
    hide Told, ContextAfter, Marks, ReportsOf, Sound, Follows, Stuck, EndsStuck;
    SoundStays(story, was.aborted, scope.aborted);
    FollowsStays(story, turns, prompted, u, !was.Admits(), !scope.Admits());
  }

  lemma LeadsOn(before: Standing, told: seq<StoryStep>, now: Standing, step: StoryStep, after: Standing,
                turns: seq<TurnScript>, prompted: bool, u: Setup, was: Scope, scope: Scope)
    requires Leads(before, told, now, turns, prompted, u, was) && was.OnlyCancels(scope) && |told| < |turns|
    requires after.messages == now.messages + step.opening.injected + step.block.Flat()
    requires after.context == step.opening.ContextFrom(now.context) + step.block.Flat()
    requires after.history == now.history + MarksBefore(step.opening.injected) + step.block.Marks()
    requires after.reports == now.reports + [step.block.Report()] && (step.block.stuck <==> Stuck(after.history))
    requires step.block.Recovers(scope.aborted) && step.block.Answered(scope.aborted)
    requires step.Scripted(turns[|told|], prompted && told == [], u, !scope.Admits())
    ensures Leads(before, told + [step], after, turns, prompted, u, scope)
  {
    hide Told, ContextAfter, Marks, ReportsOf, Sound, Follows, Stuck, EndsStuck, StoryStep.Scripted, TurnBlock.Flat,
         TurnBlock.Marks, TurnBlock.Recovers, TurnBlock.Answered, TurnBlock.Report, MarksBefore, Opening.ContextFrom;
    LeadsStill(before, told, now, turns, prompted, u, was, scope);
    StoryGrows(told, step, scope.aborted);
    FollowsGrows(told, step, turns, prompted, u, !scope.Admits());
    Reassociate(before.messages, Told(told), step.opening.injected, step.block.Flat());
    Regroup(before.reports, ReportsOf(told), [step.block.Report()]);
    Reassociate(before.history, Marks(told), MarksBefore(step.opening.injected), step.block.Marks());
  }

  /** A response, and what was recovered with it, put on record. */
  lemma ResponseEffects(b: TurnBlock, before: seq<nat>, mid: seq<nat>, after: seq<nat>)
    requires b.calls == [] && mid == before + if b.request.Some? then [b.request.value] else []
    requires Bag(after) == Bag(mid) + StartsOf(b.redone)
    ensures Bag(after) == Bag(before) + b.Effects()
  {
    NoCalls();
    if b.request.Some? {
      BagPush(before, b.request.value);
    }
  }

  lemma AddedTwice(a: seq<Message>, x: seq<Message>, b: seq<Message>, y: seq<Message>, c: seq<Message>)
    requires b == a + x && c == b + y
    ensures c == a + (x + y)
  {
  }

  lemma SameRest(a: multiset<nat>, b: multiset<nat>, c: multiset<nat>)
    requires a + b == a + c
    ensures b == c
  {
    forall e ensures b[e] == c[e] {
      assert (a + b)[e] == (a + c)[e];
    }
  }

  lemma NothingOnRecord(cfg: Config, effects: seq<nat>)
    ensures effects + Started([]) == effects && OnRecord([], cfg)
  {
  }

  /** A turn that has come to its end, or has been left in the middle, puts its effects on record. */
  lemma RecordGrows(told: seq<StoryStep>, step: StoryStep, cfg: Config, before: seq<nat>, now: seq<nat>,
                    after: seq<nat>)
    requires OnRecord(told, cfg) && now == before + Started(told)
    requires now <= after && step.effects == after[|now|..]
    requires Bag(after) == Bag(now) + step.block.Effects() && step.block.OnRecord(cfg)
    ensures OnRecord(told + [step], cfg) && after == before + Started(told + [step])
  {
    assert (told + [step])[..|told|] == told;
    assert after == now + step.effects;
    BagAppend(now, step.effects);
    hide TurnBlock.Effects, TurnBlock.OnRecord, Bag;
    SameRest(Bag(now), Bag(step.effects), step.block.Effects());
    Regroup(before, Started(told), step.effects);
  }

  /**
    What a run is accountable for: the origin of every new message, where the pending ones came
    from, the marks the guard sees, and what the new messages from position `offset` on were added
    to in the agent's transcript.
   */
  datatype Ledger = Ledger(
    origins: seq<Origin>, pendingOrigin: Origin, history: seq<Mark>, offset: nat, transcript: seq<Message>)

  class AgentLoop {
    const agent: Agent
    const cfg: Config
    const sequentialMode: bool
    /** `currentContext.messages`. */
    var context: seq<Message>
    var newMessages: seq<Message>
    var pendingMessages: seq<Message>
    var lastTurnFingerprint: Option<Fingerprint>
    var turnFingerprintRepeats: nat
    var skipInitialSteeringPoll: bool
    ghost var ledger: Ledger

    constructor (agent: Agent, cfg: Config, sequentialMode: bool, context: seq<Message>, skip: bool)
      ensures this.agent == agent && this.cfg == cfg && this.sequentialMode == sequentialMode
      ensures this.context == context && newMessages == [] && pendingMessages == [] && skipInitialSteeringPoll == skip
      ensures lastTurnFingerprint == None && turnFingerprintRepeats == 0
      ensures ledger == Ledger([], Steered, [], 0, agent.messages)
    {
      this.agent, this.cfg, this.sequentialMode, this.context := agent, cfg, sequentialMode, context;
      newMessages, pendingMessages, lastTurnFingerprint, turnFingerprintRepeats := [], [], None, 0;
      skipInitialSteeringPoll, ledger := skip, Ledger([], Steered, [], 0, agent.messages);
    }

    // ---------------------------------------------------------------- tool calls

    ghost function Setting(): Setup {
      Setup(cfg, sequentialMode, agent.outset)
    }

    /** The gate at this moment is what the tape says. */
    lemma GateShown()
      requires agent.Valid()
      ensures Shown(agent.outset, Gate(agent.scope.aborted, agent.scope.Admits(), agent.awaited))
    {
    }

    /** The executions of these calls are on record, each with the moment it began, and so are no others. */
    twostate predicate Recorded(states: seq<CallState>)
      reads agent
    {
      && Bag(agent.effects) == Bag(old(agent.effects)) + StartsOf(states)
      && forall i | 0 <= i < |states| :: CallOk(cfg, states[i])
    }

    /** Other code runs, then the environment's reply moves the call up to its next `await`. */
    method Resume(s: CallState, reply: Reply) returns (s': CallState, ghost gate: Gate)
      requires agent.Valid() && CallOk(cfg, s)
      modifies agent`tape, agent`scope, agent`steering, agent`followUps, agent`awaited, agent`effects
      ensures agent.Onward()
      ensures Shown(agent.outset, gate) && gate.at == agent.awaited && s' == Step(cfg, gate, s, reply)
      ensures Bag(agent.effects) + StartOf(s) == Bag(old(agent.effects)) + StartOf(s')
      ensures CallOk(cfg, s') && s'.call == s.call
      ensures Reported(s) ==> Reported(s')
      ensures var e := Emitted(s, reply);
        if Reported(s') && !Reported(s) then e == Some(ToolEnd(s.call.id))
        else e == None || (e == Some(ToolUpdate(s.call.id)) && !Reported(s))
    {
      hide CallOk, Step, Emitted, Reported, Agent.Valid, Agent.Resumed, Scope.Admits, StartOf, Shown, Bag;
      agent.Await();
      var now := Gate(agent.scope.aborted, agent.CanAdmit(), agent.awaited);
      GateShown();
      gate := now;
      StepOk(cfg, now, s, reply);
      StepStarts(cfg, now, s, reply);
      s' := Step(cfg, now, s, reply);
      if s'.starts > s.starts {
        BagPush(agent.effects, agent.awaited);
        agent.StartEffect();
      }
    }

    /** One atomic step of one call, and the event it emits. */
    method Advance(s: CallState, reply: Reply) returns (s': CallState, ghost gate: Gate)
      requires agent.Valid() && CallOk(cfg, s)
      requires StageOf(agent.trace).InTurn? && (!Reported(s) ==> s.call.id in StageOf(agent.trace).open)
      modifies agent
      ensures agent.Onward() && agent.Quiet()
      ensures Shown(agent.outset, gate) && s' == Step(cfg, gate, s, reply)
      ensures Bag(agent.effects) + StartOf(s) == Bag(old(agent.effects)) + StartOf(s')
      ensures CallOk(cfg, s') && s'.call == s.call
      ensures Reported(s) ==> Reported(s')
      ensures StageOf(agent.trace) ==
        if Reported(s') && !Reported(s) then InTurn(old(StageOf(agent.trace)).open - multiset{s.call.id})
        else old(StageOf(agent.trace))
    {
      hide CallOk, Emitted, Reported, StageOf, Committed, StartedCalls, TurnReports, Agent.Valid, Step, StartOf,
           Shown, Bag;
      s', gate := Resume(s, reply);
      var event := Emitted(s, reply);
      if event.Some? {
        agent.Emit(event.value);
      }
    }

    /** All replies of one call, one after another; those that come too late change nothing. */
    method Drive(s: CallState, replies: seq<Reply>) returns (s': CallState, ghost gates: seq<Gate>)
      requires agent.Valid() && CallOk(cfg, s) && !Reported(s)
      requires StageOf(agent.trace).InTurn? && s.call.id in StageOf(agent.trace).open
      modifies agent
      ensures agent.Onward() && agent.Quiet()
      ensures |gates| == |replies| && AllShown(agent.outset, gates) && s' == Run(cfg, s, Zip(gates, replies))
      ensures Bag(agent.effects) + StartOf(s) == Bag(old(agent.effects)) + StartOf(s')
      ensures CallOk(cfg, s') && s'.call == s.call
      ensures StageOf(agent.trace) ==
        if Reported(s') then InTurn(old(StageOf(agent.trace)).open - multiset{s.call.id}) else old(StageOf(agent.trace))
    {
      s', gates := s, [];
      hide CallOk, Reported, StageOf, Committed, StartedCalls, TurnReports, Agent.Valid, Step, StartOf, Shown, Run,
           Zip, Bag;
      var k := 0;
      RunNothing(cfg, s, replies);
      while k < |replies| && !s'.Finished()
        invariant k == |gates| <= |replies| && AllShown(agent.outset, gates)
        invariant s' == Run(cfg, s, Zip(gates, replies[..k]))
        invariant agent.Onward() && agent.Quiet()
        invariant Bag(agent.effects) + StartOf(s) == Bag(old(agent.effects)) + StartOf(s')
        invariant CallOk(cfg, s') && s'.call == s.call
        invariant StageOf(agent.trace) ==
          if Reported(s') then InTurn(old(StageOf(agent.trace)).open - multiset{s.call.id})
          else old(StageOf(agent.trace))
      {
        ghost var gate, before, effects := SHUT, s', agent.effects;
        s', gate := Advance(s', replies[k]);
        Balance(Bag(effects), StartOf(s), Bag(old(agent.effects)), StartOf(before), Bag(agent.effects),
                StartOf(s'));
        RunOnce(cfg, s, gates, replies, gate);
        gates := gates + [gate];
        k := k + 1;
      }
      GateShown();
      ghost var now := Gate(agent.scope.aborted, agent.scope.Admits(), agent.awaited);
      RunRest(cfg, s, gates, replies, now);
      gates := gates + seq(|replies| - |gates|, _ => now);
    }

    /** Announce the call, prepare it and check for cancellation once its hook has been awaited. */
    method PrepareToolCall(call: ToolCall, p: Preparation) returns (s: CallState)
      requires agent.Valid() && StageOf(agent.trace).InTurn?
      modifies agent
      ensures agent.Onward() && agent.messages == old(agent.messages) && agent.effects == old(agent.effects)
      ensures Committed(agent.trace) == old(Committed(agent.trace))
      ensures StartedCalls(agent.trace) == old(StartedCalls(agent.trace)) + [call.id]
      ensures s == PreparedCall(cfg, call, p, agent.scope.aborted)
      ensures CallOk(cfg, s) && s.call == call && !Reported(s) && s.starts == 0
      ensures s.phase.AwaitPersist? || !agent.scope.aborted
      ensures StageOf(agent.trace) == InTurn(old(StageOf(agent.trace)).open + multiset{call.id})
    {
      hide StageOf, Committed, StartedCalls, TurnReports, Agent.Valid, Agent.Resumed, CallOk, Reported, Prepare, Bag;
      agent.Emit(ToolStart(call.id));
      agent.Await();
      PreparedOk(cfg, call, p, agent.scope.aborted);
      var prepared := Prepare(call, p, agent.scope.aborted);
      match prepared {
        case Immediate(output) => s := SettledCall(call, output);
        case Ready(tool) => s := Begin(cfg, call, tool);
      }
    }

    /** One call from its announcement to the end of its execution. */
    method SettleCall(call: ToolCall, script: CallScript) returns (s: CallState)
      requires agent.Valid() && StageOf(agent.trace) == InTurn(multiset{})
      modifies agent
      ensures agent.Onward() && CallOk(cfg, s) && s.call == call && Plays(Setting(), call, script, s)
      ensures Bag(agent.effects) == Bag(old(agent.effects)) + StartOf(s)
      ensures s.phase.Done? ==>
        && s.phase.finalized.call == call
        && StageOf(agent.trace) == InTurn(multiset{})
        && agent.messages == old(agent.messages) && Committed(agent.trace) == old(Committed(agent.trace))
        && StartedCalls(agent.trace) == old(StartedCalls(agent.trace)) + [call.id]
    {
      hide StageOf, Committed, StartedCalls, TurnReports, Agent.Valid, CallOk, Reported, Run, Zip, PreparedCall,
           AllShown, Bag;
      var start := PrepareToolCall(call, script.preparation);
      ghost var aborted, gates := agent.scope.aborted, [];
      s, gates := Drive(start, script.replies);
      DoneIs(cfg, s);
    }

    // ---------------------------------------------------------------- batches

    /** What a settled batch has left behind. */
    twostate predicate BatchSettled(calls: seq<ToolCall>, b: BatchResult, states: seq<CallState>)
      requires b.Batch?
      reads agent
    {
      && StageOf(agent.trace) == InTurn(multiset{})
      && agent.Commits(b.results) && Answers(calls, b.results)
      && (|b.results| < |calls| ==> agent.scope.aborted)
      && AllDone(cfg, calls, states) && Reports(states, b.results)
      && (b.terminate <==> AllTerminate(states))
      && StartedCalls(agent.trace) == old(StartedCalls(agent.trace)) + Ids(calls[..|b.results|])
    }

    method ExecuteSequential(calls: seq<ToolCall>, script: seq<CallScript>)
        returns (b: BatchResult, ghost states: seq<CallState>)
      requires agent.Valid() && StageOf(agent.trace) == InTurn(multiset{})
      modifies agent
      ensures agent.Onward() && Recorded(states) && AllPlay(Setting(), calls, script, states)
      ensures b.Batch? ==> BatchSettled(calls, b, states)
      ensures |calls| <= |script| && (forall i | 0 <= i < |calls| :: SettlesCall(cfg, calls[i], script[i])) ==> b.Batch?
    {
      var results: seq<Message>, finalized: seq<CallState> := [], [];
      var i := 0;
      states := [];
      NothingDone(Setting(), calls, script);
      hide CallOk, StageOf, Committed, StartedCalls, TurnReports, Agent.Valid, StartsOf, StartOf, Plays, SettlesCall,
           Bag, Answers, Reports, AllDone, AllPlay;
      while i < |calls|
        invariant i <= |calls| && i <= |script| && states == finalized && |finalized| == i
        invariant agent.Onward() && StageOf(agent.trace) == InTurn(multiset{})
        invariant agent.Commits(results) && Answers(calls, results) && |results| == i
        invariant AllDone(cfg, calls, finalized) && Reports(finalized, results)
        invariant forall k | 0 <= k < |finalized| :: finalized[k].phase.Done?
        invariant Recorded(states) && AllPlay(Setting(), calls, script, states)
        invariant StartedCalls(agent.trace) == old(StartedCalls(agent.trace)) + Ids(calls[..i])
      {
        if i >= |script| {
          return Unfinished, states;
        }
        IdsExtend(calls, i);
        var s := SettleCall(calls[i], script[i]);
        StartsExtend(states, s);
        Associate(Bag(old(agent.effects)), StartsOf(states), StartOf(s));
        OneMorePlays(Setting(), calls, script, states, s);
        states := states + [s];
        if SettlesCall(cfg, calls[i], script[i]) {
          PlaysToTheEnd(Setting(), calls[i], script[i], s);
        }
        if s.phase.Rejected? {
          return Threw, states;
        }
        if !s.phase.Done? {
          return Unfinished, states;
        }
        OneMoreDone(cfg, calls, finalized, results, s);
        var result := ResultMessage(s.phase.finalized);
        agent.EmitMessage(result);
        results := results + [result];
        finalized := finalized + [s];
        i := i + 1;
        if agent.scope.aborted {
          break;
        }
      }
      b := Batch(results, results != [] && EveryOutputTerminates(finalized));
    }

    /** Announce and prepare the calls in order; those that preparation settles are reported at once. */
    method PrepareAll(calls: seq<ToolCall>, script: seq<CallScript>)
        returns (failure: Option<BatchResult>, states: seq<CallState>)
      requires agent.Valid() && StageOf(agent.trace) == InTurn(multiset{})
      modifies agent
      ensures agent.Onward() && Recorded(states)
      ensures failure.Some? ==> !failure.value.Batch?
      ensures failure.None? ==>
        && Live(cfg, calls, states) && (|states| < |calls| ==> agent.scope.aborted)
        && AllBegin(Setting(), calls, script, states)
        && StageOf(agent.trace) == InTurn(OpenCalls(states))
        && agent.messages == old(agent.messages) && Committed(agent.trace) == old(Committed(agent.trace))
        && StartedCalls(agent.trace) == old(StartedCalls(agent.trace)) + Ids(calls[..|states|])
      ensures |calls| <= |script| && (forall i | 0 <= i < |calls| :: SettlesPrepared(cfg, calls[i], script[i])) ==>
        failure.None?
    {
      states, failure := [], None;
      var i := 0;
      hide CallOk, StageOf, Committed, StartedCalls, TurnReports, Agent.Valid, OpenCalls, StartsOf, StartOf, Begins,
           BeginsSettled, SettlesPrepared, Bag;
      OpenCallsNone();
      NoCalls();
      while i < |calls|
        invariant i <= |calls| && |states| == i
        invariant agent.Onward() && Live(cfg, calls, states)
        invariant Recorded(states) && AllBegin(Setting(), calls, script, states)
        invariant StageOf(agent.trace) == InTurn(OpenCalls(states))
        invariant agent.messages == old(agent.messages) && Committed(agent.trace) == old(Committed(agent.trace))
        invariant StartedCalls(agent.trace) == old(StartedCalls(agent.trace)) + Ids(calls[..i])
      {
        if i >= |script| {
          return Some(Unfinished), states;
        }
        IdsExtend(calls, i);
        var s, over := BeginCall(calls[i], script[i]);
        StartsExtend(states, s);
        OpenCallsExtend(states, s);
        states := states + [s];
        if over.Some? {
          return over, states;
        }
        i := i + 1;
        if agent.scope.aborted {
          break;
        }
      }
    }

    /** A call of a parallel batch up to the point where it runs beside the others. */
    method BeginCall(call: ToolCall, script: CallScript) returns (s: CallState, failure: Option<BatchResult>)
      requires agent.Valid() && StageOf(agent.trace).InTurn?
      modifies agent
      ensures agent.Onward() && agent.messages == old(agent.messages)
      ensures Committed(agent.trace) == old(Committed(agent.trace))
      ensures StartedCalls(agent.trace) == old(StartedCalls(agent.trace)) + [call.id]
      ensures CallOk(cfg, s) && s.call == call && Bag(agent.effects) == Bag(old(agent.effects)) + StartOf(s)
      ensures StageOf(agent.trace) ==
        InTurn(old(StageOf(agent.trace)).open + if Reported(s) then multiset{} else multiset{call.id})
      ensures Begins(Setting(), call, script, s)
      ensures failure.Some? ==> !failure.value.Batch?
      ensures SettlesPrepared(cfg, call, script) ==> failure.None?
    {
      hide StageOf, Committed, StartedCalls, TurnReports, Agent.Valid, CallOk, Reported, Run, Zip, PreparedCall,
           AllShown, Bag;
      failure := None;
      s := PrepareToolCall(call, script.preparation);
      ghost var aborted := agent.scope.aborted;
      if s.phase.AwaitPersist? {
        ghost var gates;
        s, gates := Drive(s, script.replies);
        assert BeginsSettled(Setting(), call, script, s);
        if SettlesPrepared(cfg, call, script) {
          BeginsToTheEnd(Setting(), call, script, s);
        }
        if s.phase.Rejected? {
          failure := Some(Threw);
        } else if !s.phase.Done? {
          failure := Some(Unfinished);
        }
      }
    }

    /** One step of one call among others. */
    method AdvanceOne(calls: seq<ToolCall>, states: seq<CallState>, i: nat, reply: Reply)
        returns (after: seq<CallState>, ghost gate: Gate)
      requires agent.Valid() && Live(cfg, calls, states) && i < |states|
      requires StageOf(agent.trace) == InTurn(OpenCalls(states))
      modifies agent
      ensures agent.Onward() && agent.Quiet()
      ensures Shown(agent.outset, gate) && after == states[i := Step(cfg, gate, states[i], reply)]
      ensures Bag(agent.effects) + StartsOf(states) == Bag(old(agent.effects)) + StartsOf(after)
      ensures Live(cfg, calls, after) && StageOf(agent.trace) == InTurn(OpenCalls(after))
    {
      hide CallOk, Reported, StageOf, Committed, StartedCalls, TurnReports, Agent.Valid, OpenCalls, StartsOf, StartOf,
           Step, Shown, Bag;
      if !Reported(states[i]) {
        SomeOpen(states, i);
      }
      var s;
      s, gate := Advance(states[i], reply);
      OpenCallsUpdate(states, i, s);
      StartsUpdate(states, i, s);
      after := states[i := s];
      Exchange(Bag(old(agent.effects)), StartsOf(states), Bag(agent.effects), StartOf(states[i]), StartOf(s),
               StartsOf(after));
    }

    /** The calls run concurrently: each step resumes whichever call its reply belongs to. */
    method Interleave(calls: seq<ToolCall>, states0: seq<CallState>, steps: seq<(nat, Reply)>)
        returns (states: seq<CallState>, ghost gates: seq<Gate>)
      requires agent.Valid() && Live(cfg, calls, states0)
      requires StageOf(agent.trace) == InTurn(OpenCalls(states0))
      modifies agent
      ensures agent.Onward() && agent.Quiet()
      ensures |gates| == |steps| && AllShown(agent.outset, gates) && states == Interleaved(cfg, states0, steps, gates)
      ensures Bag(agent.effects) + StartsOf(states0) == Bag(old(agent.effects)) + StartsOf(states)
      ensures Live(cfg, calls, states) && |states| == |states0|
      ensures StageOf(agent.trace) == InTurn(OpenCalls(states))
    {
      states, gates := states0, [];
      hide Live, StageOf, Committed, StartedCalls, TurnReports, Agent.Valid, OpenCalls, StartsOf, Interleaved, Step,
           Shown, Bag;
      NoSteps(cfg, states0, steps);
      for k := 0 to |steps|
        invariant agent.Onward() && agent.Quiet()
        invariant |gates| == k && AllShown(agent.outset, gates)
        invariant states == Interleaved(cfg, states0, steps[..k], gates)
        invariant Bag(agent.effects) + StartsOf(states0) == Bag(old(agent.effects)) + StartsOf(states)
        invariant Live(cfg, calls, states) && |states| == |states0|
        invariant StageOf(agent.trace) == InTurn(OpenCalls(states))
      {
        GateShown();
        ghost var gate := Gate(agent.scope.aborted, agent.scope.Admits(), agent.awaited);
        ghost var before, effects := states, agent.effects;
        if steps[k].0 < |states| {
          states, gate := AdvanceOne(calls, states, steps[k].0, steps[k].1);
          Balance(Bag(effects), StartsOf(states0), Bag(old(agent.effects)), StartsOf(before), Bag(agent.effects),
                  StartsOf(states));
        }
        OneMoreStep(cfg, states0, steps, gates, gate);
        gates := gates + [gate];
      }
      assert steps[..|steps|] == steps;
    }

    /** The results are published in source order, whatever order the calls finished in. */
    method PublishAll(calls: seq<ToolCall>, states: seq<CallState>) returns (results: seq<Message>)
      requires agent.Valid() && StageOf(agent.trace) == InTurn(multiset{}) && AllDone(cfg, calls, states)
      modifies agent
      ensures agent.Onward() && StageOf(agent.trace) == InTurn(multiset{}) && agent.effects == old(agent.effects)
      ensures agent.Commits(results) && Answers(calls, results) && Reports(states, results) && |results| == |states|
      ensures StartedCalls(agent.trace) == old(StartedCalls(agent.trace))
    {
      results := [];
      hide CallOk, StageOf, Committed, StartedCalls, TurnReports, Agent.Valid, Agent.Conserved, Bag;
      for i := 0 to |states|
        invariant agent.Onward() && StageOf(agent.trace) == InTurn(multiset{}) && agent.effects == old(agent.effects)
        invariant agent.Commits(results) && |results| == i
        invariant StartedCalls(agent.trace) == old(StartedCalls(agent.trace))
        invariant forall j | 0 <= j < i :: results[j] == ResultMessage(states[j].phase.finalized)
      {
        var result := ResultMessage(states[i].phase.finalized);
        agent.EmitMessage(result);
        results := results + [result];
      }
      ReportsAnswer(calls, states, results);
    }

    lemma ReportsAnswer(calls: seq<ToolCall>, states: seq<CallState>, results: seq<Message>)
      requires AllDone(cfg, calls, states) && |results| == |states|
      requires forall j | 0 <= j < |states| :: results[j] == ResultMessage(states[j].phase.finalized)
      ensures Answers(calls, results) && Reports(states, results)
    {
    }

    method ExecuteParallel(calls: seq<ToolCall>, script: BatchScript)
        returns (b: BatchResult, ghost states: seq<CallState>)
      requires agent.Valid() && StageOf(agent.trace) == InTurn(multiset{})
      modifies agent
      ensures agent.Onward() && Recorded(states)
      ensures b.Batch? ==> BatchSettled(calls, b, states) && PlayTogether(Setting(), calls, script, states)
      ensures
        (&& |calls| <= |script.calls| && SettlesTogether(Setting(), calls, script)
         && forall i | 0 <= i < |calls| :: SettlesPrepared(cfg, calls[i], script.calls[i])) ==> b.Batch?
    {
      hide CallOk, StageOf, Committed, StartedCalls, TurnReports, OpenCalls, Agent.Valid, Answers, Reports,
           AllTerminate, StartsOf, Interleaved, AllBegin, AllShown, SettlesPrepared, Bag;
      var failure, begun := PrepareAll(calls, script.calls);
      states := begun;
      if failure.Some? {
        return failure.value, states;
      }
      ghost var gates;
      var running;
      ghost var effects := agent.effects;
      running, gates := Interleave(calls, begun, script.steps);
      states := running;
      assert PlayTogether(Setting(), calls, script, states);
      LiveIsOk(calls, states);
      Balance(Bag(effects), multiset{}, Bag(old(agent.effects)), StartsOf(begun), Bag(agent.effects),
              StartsOf(states));
      if SettlesTogether(Setting(), calls, script) {
        OverIsFinished(states);
      }
      if !AllFinished(running) {
        return Unfinished, states;
      }
      if !NoneRejected(running) {
        return Threw, states;
      }
      SettledAreDone(calls, running);
      var results := PublishAll(calls, running);
      b := Batch(results, results != [] && EveryOutputTerminates(running));
    }

    lemma LiveIsOk(calls: seq<ToolCall>, states: seq<CallState>)
      requires Live(cfg, calls, states)
      ensures forall i | 0 <= i < |states| :: CallOk(cfg, states[i])
    {
    }

    lemma SettledAreDone(calls: seq<ToolCall>, states: seq<CallState>)
      requires Live(cfg, calls, states) && AllFinished(states) && NoneRejected(states)
      ensures AllDone(cfg, calls, states) && OpenCalls(states) == multiset{}
      ensures states != [] && EveryOutputTerminates(states) <==> AllTerminate(states)
    {
      AllReported(states);
    }

    method ExecuteToolCalls(calls: seq<ToolCall>, script: BatchScript)
        returns (b: BatchResult, ghost states: seq<CallState>)
      requires agent.Valid() && StageOf(agent.trace) == InTurn(multiset{})
      modifies agent
      ensures agent.Onward() && Recorded(states)
      ensures b.Batch? ==> BatchSettled(calls, b, states) && Played(Setting(), calls, script, states)
      ensures SettlesBatch(Setting(), calls, false, script) ==> b.Batch?
    {
      hide CallOk, StageOf, Committed, StartedCalls, TurnReports, OpenCalls, Agent.Valid, StartsOf, AllPlay,
           PlayTogether, SettlesTogether, SettlesPrepared, SettlesCall, Bag;
      if sequentialMode || AnySequential(script.calls) {
        b, states := ExecuteSequential(calls, script.calls);
      } else {
        b, states := ExecuteParallel(calls, script);
      }
    }

    /** Calls of a response cut off by the token limit are answered with errors and never executed. */
    method FailTruncated(calls: seq<ToolCall>, script: BatchScript)
        returns (b: BatchResult, ghost states: seq<CallState>)
      requires agent.Valid() && StageOf(agent.trace) == InTurn(multiset{})
      modifies agent
      ensures agent.Onward() && agent.effects == old(agent.effects)
      ensures NoneStarted(states) && forall i | 0 <= i < |states| :: CallOk(cfg, states[i])
      ensures b.Batch? ==>
        && StageOf(agent.trace) == InTurn(multiset{}) && agent.Commits(b.results)
        && Answers(calls, b.results) && |b.results| == |calls| && !b.terminate
        && (forall r | r in b.results :: r.isError)
        && AllDone(cfg, calls, states) && Reports(states, b.results)
      ensures SettlesBatch(Setting(), calls, true, script) ==> b.Batch?
    {
      var results: seq<Message> := [];
      var i := 0;
      states := [];
      hide CallOk, StageOf, Committed, StartedCalls, TurnReports, Agent.Valid, Bag;
      while i < |calls|
        invariant i <= |calls| && |states| == i
        invariant agent.Onward() && StageOf(agent.trace) == InTurn(multiset{}) && agent.effects == old(agent.effects)
        invariant agent.Commits(results) && Answers(calls, results) && |results| == i
        invariant AllDone(cfg, calls, states) && Reports(states, results) && NoneStarted(states)
        invariant forall r | r in results :: r.isError
      {
        if i >= |script.calls| {
          return Unfinished, states;
        }
        var s := FailCall(calls[i], script.calls[i].replies);
        if s.phase.Rejected? {
          return Threw, states;
        }
        if !s.phase.Done? {
          return Unfinished, states;
        }
        var result := ResultMessage(s.phase.finalized);
        agent.EmitMessage(result);
        results := results + [result];
        states := states + [s];
        i := i + 1;
      }
      b := Batch(results, false);
    }

    method FailCall(call: ToolCall, replies: seq<Reply>) returns (s: CallState)
      requires agent.Valid() && StageOf(agent.trace) == InTurn(multiset{})
      modifies agent
      ensures agent.Onward() && agent.effects == old(agent.effects)
      ensures CallOk(cfg, s) && s.call == call && s.starts == 0
      ensures s.phase.Done? ==>
        && s.phase.finalized.call == call && s.phase.finalized.isError
        && StageOf(agent.trace) == InTurn(multiset{})
        && agent.messages == old(agent.messages) && Committed(agent.trace) == old(Committed(agent.trace))
      ensures Persists(replies) ==> s.phase.Done?
    {
      hide StageOf, Committed, StartedCalls, TurnReports, Agent.Valid, ScopeAfter, Bag;
      agent.Emit(ToolStart(call.id));
      s := SettledCall(call, ErrorOutput("Tool call \"" + call.name + "\" was not executed"));
      s := Report(s, replies);
    }

    /** Persist and report a call that never started. */
    method Report(s: CallState, replies: seq<Reply>) returns (s': CallState)
      requires agent.Valid() && CallOk(cfg, s) && !Reported(s) && s.phase.AwaitPersist?
      requires StageOf(agent.trace).InTurn? && s.call.id in StageOf(agent.trace).open
      modifies agent
      ensures agent.Onward() && agent.Quiet() && agent.effects == old(agent.effects)
      ensures StageOf(agent.trace) ==
        if Reported(s') then InTurn(old(StageOf(agent.trace)).open - multiset{s.call.id}) else old(StageOf(agent.trace))
      ensures s'.phase.Done? ==> s'.phase.finalized == s.phase.finalized
      ensures CallOk(cfg, s') && s'.call == s.call && s'.starts == s.starts && (Persists(replies) ==> s'.phase.Done?)
    {
      s' := s;
      hide Committed, StartedCalls, TurnReports, Flatten, Agent.Valid, Bag;
      agent.Await();
      if |replies| < 2 {
        return;
      }
      if replies[0] == Reject {
        return s.(phase := Rejected(false));
      }
      agent.Emit(ToolEnd(s.call.id));
      s' := s.(phase := if replies[1] == Reject then Rejected(true) else Done(s.phase.finalized));
    }

    // ---------------------------------------------------------------- the provider

    /** One provider event: a `start` pushes a placeholder, a later event replaces the last one. */
    method ReadEvent(event: StreamEvent, added: bool)
      requires agent.Valid() && (added ==> context != [])
      modifies this`context, agent
      ensures agent.Onward() && agent.Quiet() && agent.effects == old(agent.effects)
      ensures event.Start? ==>
        && context == old(context) + [event.partial]
        && StageOf(agent.trace) == Next(old(StageOf(agent.trace)), MessageStart(event.partial))
      ensures event.Delta? && added ==>
        && context == old(context)[|old(context)| - 1 := event.partial]
        && StageOf(agent.trace) == Next(old(StageOf(agent.trace)), MessageUpdate(event.partial))
      ensures event.Delta? && !added ==> context == old(context) && StageOf(agent.trace) == old(StageOf(agent.trace))
    {
      hide Committed, StartedCalls, TurnReports, Flatten, Agent.Valid, StageOf, Bag;
      match event {
        case Start(partial) =>
          context := context + [partial];
          agent.Emit(MessageStart(partial));
        case Delta(partial, completed) =>
          if completed.Some? {
            agent.Await();
          }
          if added {
            context := context[|context| - 1 := partial];
            agent.Emit(MessageUpdate(partial));
          }
      }
    }

    /** Feed the provider's events through; placeholders live at the end of the context meanwhile. */
    method ReadResponse(events: seq<StreamEvent>) returns (added: bool)
      requires agent.Valid() && StageOf(agent.trace) == InTurn(multiset{})
      modifies this`context, agent
      ensures agent.Onward() && agent.Quiet() && agent.effects == old(agent.effects)
      ensures added <==> Starts(events) > 0
      ensures |context| == |old(context)| + Starts(events) && context[..|old(context)|] == old(context)
      ensures Starts(events) == 0 ==> StageOf(agent.trace) == InTurn(multiset{})
      ensures Starts(events) == 1 ==> StageOf(agent.trace) == InMessage(multiset{})
    {
      added := false;
      hide Committed, StartedCalls, TurnReports, Flatten, Agent.Valid, StageOf, Bag;
      assert events[..0] == [];
      for k := 0 to |events|
        invariant agent.Onward() && agent.Quiet() && agent.effects == old(agent.effects)
        invariant added <==> Starts(events[..k]) > 0
        invariant |context| == |old(context)| + Starts(events[..k]) && context[..|old(context)|] == old(context)
        invariant Starts(events[..k]) == 0 ==> StageOf(agent.trace) == InTurn(multiset{})
        invariant Starts(events[..k]) == 1 ==> StageOf(agent.trace) == InMessage(multiset{})
      {
        assert events[..k + 1][..k] == events[..k];
        ReadEvent(events[k], added);
        added := added || events[k].Start?;
      }
      assert events[..|events|] == events;
    }

    /** The stream is over: take the placeholder back, or open the message now, and settle its outcome. */
    method Conclude(script: StreamScript, added: bool) returns (r: Streamed)
      requires agent.Valid() && (added ==> context != [])
      modifies this`context, agent
      ensures agent.Onward() && agent.Quiet() && agent.effects == old(agent.effects)
      ensures context == if added then old(context)[..|old(context)| - 1] else old(context)
      ensures added ==> StageOf(agent.trace) == old(StageOf(agent.trace))
      ensures !added && old(StageOf(agent.trace)) == InTurn(multiset{}) ==>
        StageOf(agent.trace) == InMessage(multiset{})
      ensures script.Yields(r, agent.scope.aborted)
    {
      hide Committed, StartedCalls, TurnReports, Flatten, Agent.Valid, SplitFailure, Bag;
      agent.Await();
      var cancelled := agent.scope.aborted && script.final.stopReason == Failure;
      var final: AssistantMessage :=
        if cancelled then Cancelled(script.final) else script.final;
      if added {
        context := context[..|context| - 1];
      } else {
        agent.Emit(MessageStart(final));
      }
      r := Streamed(final, None);
      if !agent.scope.aborted && final.stopReason == Failure && script.retryable {
        var split := SplitFailure(final, script.events);
        if split.checkpoint.Some? {
          r := split;
        }
      }
    }

    /**
      One response of the provider. Afterwards a message is open in the trace; with at most one
      `start` event the context is as it was, otherwise every `start` but one leaves its placeholder.
     */
    method StreamAssistantResponse(script: StreamScript) returns (r: Streamed, ghost request: Option<nat>)
      requires agent.Valid() && StageOf(agent.trace) == InTurn(multiset{})
      modifies this`context, agent
      ensures agent.Onward() && agent.Quiet()
      ensures agent.effects == old(agent.effects) + if request.Some? then [request.value] else []
      ensures request.None? ==> context == old(context) && r == Streamed(ABORTED_MESSAGE, None)
      ensures request.Some? <==> ScopeAfter(old(agent.scope), old(agent.Upcoming())).Admits()
      ensures request.Some? ==>
        |context| == |old(context)| + (if Starts(script.events) > 1 then Starts(script.events) - 1 else 0)
      ensures Starts(script.events) <= 1 ==> context == old(context) && StageOf(agent.trace) == InMessage(multiset{})
      ensures script.Yields(r, !agent.scope.Admits())
    {
      hide Committed, StartedCalls, TurnReports, Flatten, Agent.Valid, SplitFailure, Starts, Bag,
           StreamScript.Yields, ScopeAfter;
      agent.Await();
      if agent.scope.aborted || !agent.CanAdmit() {
        agent.Emit(MessageStart(ABORTED_MESSAGE));
        YieldsRefusal(script);
        return Streamed(ABORTED_MESSAGE, None), None;
      }
      request := Some(agent.awaited);
      agent.StartEffect();
      agent.Await();
      var added := ReadResponse(script.events);
      r := Conclude(script, added);
      YieldsStays(script, r, agent.scope.aborted, !agent.scope.Admits());
    }

    // ---------------------------------------------------------------- the books of a run

    /** Trace, transcript and result list tell the same story. */
    ghost predicate Books()
      reads this`newMessages, this`ledger, agent
    {
      && Committed(agent.trace) == newMessages
      && ledger.offset <= |newMessages|
      && agent.messages == ledger.transcript + newMessages[ledger.offset..]
    }

    /** These messages joined both the result list and the context. */
    twostate predicate Adds(added: seq<Message>)
      reads this`newMessages, this`context
    {
      newMessages == old(newMessages) + added && context == old(context) + added
    }

    /** Of the drained messages, the first were injected, in order, and the rest are in `waiting`. */
    ghost predicate Provenance(waiting: seq<Message>)
      reads this`newMessages, this`ledger, agent
    {
      && |ledger.origins| == |newMessages|
      && ledger.pendingOrigin in {Steered, Followed}
      && agent.drainedSteering == From(newMessages, ledger.origins, Steered) +
                                  (if ledger.pendingOrigin == Steered then waiting else [])
      && agent.drainedFollowUps == From(newMessages, ledger.origins, Followed) +
                                   (if ledger.pendingOrigin == Followed then waiting else [])
    }

    /** The guard's two variables summarise the tool turns since the last interruption. */
    ghost predicate GuardMatches()
      reads this`turnFingerprintRepeats, this`lastTurnFingerprint, this`ledger
    {
      && turnFingerprintRepeats == Repeats(ledger.history)
      && lastTurnFingerprint == LastFingerprint(ledger.history)
      && NeverStuckBefore(ledger.history)
    }

    /** What holds whenever the loop is between two of its steps. */
    ghost predicate LoopOk()
      reads this, agent
    {
      agent.Valid() && Books() && Provenance(pendingMessages) && GuardMatches() && Grouped()
    }

    /** In one-at-a-time mode the pending messages are one whole group. */
    ghost predicate Grouped()
      reads this`pendingMessages, this`ledger
    {
      agent.outset.OneGroup(ChannelOf(ledger.pendingOrigin), pendingMessages)
    }

    /** What a run never changes. */
    twostate predicate Kept()
      reads this`ledger
    {
      ledger.offset == old(ledger.offset) && ledger.transcript == old(ledger.transcript)
    }

    /** A message that was not queued joins the conversation. */
    method Record(m: Message, origin: Origin)
      requires |ledger.origins| == |newMessages| && origin != Steered && origin != Followed
      modifies this`newMessages, this`ledger, this`context
      ensures Adds([m])
      ensures ledger == old(ledger).(origins := old(ledger).origins + [origin])
      ensures forall o | o in {Steered, Followed} ::
        From(newMessages, ledger.origins, o) == old(From(newMessages, ledger.origins, o))
    {
      FromExtend(newMessages, ledger.origins, m, origin, Steered);
      FromExtend(newMessages, ledger.origins, m, origin, Followed);
      newMessages, context := newMessages + [m], context + [m];
      ledger := ledger.(origins := ledger.origins + [origin]);
    }

    method RecordAll(ms: seq<Message>, origin: Origin)
      requires |ledger.origins| == |newMessages| && origin != Steered && origin != Followed
      modifies this`newMessages, this`ledger, this`context
      ensures Adds(ms)
      ensures |ledger.origins| == |newMessages| && ledger == old(ledger).(origins := ledger.origins)
      ensures forall o | o in {Steered, Followed} ::
        From(newMessages, ledger.origins, o) == old(From(newMessages, ledger.origins, o))
    {
      hide From;
      for i := 0 to |ms|
        invariant Adds(ms[..i])
        invariant |ledger.origins| == |newMessages| && ledger == old(ledger).(origins := ledger.origins)
        invariant forall o | o in {Steered, Followed} ::
          From(newMessages, ledger.origins, o) == old(From(newMessages, ledger.origins, o))
      {
        Record(ms[i], origin);
        assert ms[..i + 1] == ms[..i] + [ms[i]];
      }
      assert ms[..|ms|] == ms;
    }

    // ---------------------------------------------------------------- queues

    method PollSteering()
      requires agent.Valid() && Provenance([])
      modifies this`pendingMessages, this`ledger, this`skipInitialSteeringPoll, agent
      ensures agent.Valid() && Provenance(pendingMessages) && agent.Quiet() && agent.trace == old(agent.trace)
      ensures agent.Advances() && agent.effects == old(agent.effects)
      ensures ledger == old(ledger).(pendingOrigin := Steered) && Grouped()
      ensures pendingMessages == if old(skipInitialSteeringPoll) then [] else old(agent.steering).Front()
    {
      hide From, Flatten, Agent.Valid, StageOf, Committed, StartedCalls, TurnReports, Bag;
      pendingMessages := [];
      ledger := ledger.(pendingOrigin := Steered);
      if skipInitialSteeringPoll {
        skipInitialSteeringPoll := false;
      } else {
        pendingMessages := agent.DrainSteering();
      }
      agent.Await();
    }

    method PollFollowUps()
      requires agent.Valid() && Provenance([])
      modifies this`pendingMessages, this`ledger, agent
      ensures agent.Valid() && Provenance(pendingMessages) && agent.Quiet() && agent.trace == old(agent.trace)
      ensures agent.Advances() && agent.effects == old(agent.effects)
      ensures ledger == old(ledger).(pendingOrigin := Followed) && Grouped()
      ensures pendingMessages == old(agent.followUps).Front()
    {
      hide From, Flatten, Agent.Valid, StageOf, Committed, StartedCalls, TurnReports, Bag;
      pendingMessages := agent.DrainFollowUps();
      ledger := ledger.(pendingOrigin := Followed);
      agent.Await();
    }

    method InjectOne(m: Message, rest: seq<Message>)
      requires agent.Valid() && Books() && Provenance([m] + rest) && StageOf(agent.trace) == InTurn(multiset{})
      modifies this`newMessages, this`ledger, this`context, agent
      ensures agent.Onward() && Books() && Provenance(rest) && StageOf(agent.trace) == InTurn(multiset{})
      ensures agent.effects == old(agent.effects)
      ensures Adds([m]) && ledger == old(ledger).(origins := ledger.origins)
    {
      hide StageOf, Committed, StartedCalls, TurnReports, Flatten, Agent.Valid, From, Bag;
      agent.EmitMessage(m);
      FromExtend(newMessages, ledger.origins, m, ledger.pendingOrigin, Steered);
      FromExtend(newMessages, ledger.origins, m, ledger.pendingOrigin, Followed);
      assert (newMessages + [m])[ledger.offset..] == newMessages[ledger.offset..] + [m];
      newMessages, context := newMessages + [m], context + [m];
      ledger := ledger.(origins := ledger.origins + [ledger.pendingOrigin]);
    }

    method ResetGuard()
      requires GuardMatches() && !Stuck(ledger.history)
      modifies this`ledger, this`lastTurnFingerprint, this`turnFingerprintRepeats
      ensures GuardMatches() && !Stuck(ledger.history)
      ensures ledger == old(ledger).(history := old(ledger.history) + [Reset])
    {
      lastTurnFingerprint, turnFingerprintRepeats := None, 0;
      Continue(ledger.history, Reset);
      ledger := ledger.(history := ledger.history + [Reset]);
    }

    method InjectAll(ms: seq<Message>)
      requires agent.Valid() && Books() && Provenance(ms) && StageOf(agent.trace) == InTurn(multiset{})
      modifies this`newMessages, this`ledger, this`context, agent
      ensures agent.Onward() && Books() && Provenance([]) && StageOf(agent.trace) == InTurn(multiset{})
      ensures agent.effects == old(agent.effects)
      ensures Adds(ms) && ledger == old(ledger).(origins := ledger.origins)
    {
      hide StageOf, Committed, StartedCalls, TurnReports, Flatten, Agent.Valid, From, Books, Bag;
      assert ms[0..] == ms && ms[..0] == [];
      for i := 0 to |ms|
        invariant agent.Onward() && Books() && Provenance(ms[i..]) && StageOf(agent.trace) == InTurn(multiset{})
        invariant agent.effects == old(agent.effects)
        invariant Adds(ms[..i]) && ledger == old(ledger).(origins := ledger.origins)
      {
        assert ms[i..] == [ms[i]] + ms[i + 1..] && ms[..i + 1] == ms[..i] + [ms[i]];
        InjectOne(ms[i], ms[i + 1..]);
      }
      assert ms[|ms|..] == [] && ms[..|ms|] == ms;
    }

    /** Pending messages enter the conversation before the next response. */
    method InjectPending()
      requires LoopOk() && !Stuck(ledger.history) && StageOf(agent.trace) == InTurn(multiset{})
      modifies this, agent
      ensures LoopOk() && !Stuck(ledger.history) && StageOf(agent.trace) == InTurn(multiset{})
      ensures agent.Onward() && Kept() && pendingMessages == []
      ensures Adds(old(pendingMessages)) && agent.effects == old(agent.effects)
      ensures ledger.history == if old(pendingMessages) == [] then old(ledger.history)
          else old(ledger.history) + [Reset]
    {
      hide Stuck, StageOf, Committed, StartedCalls, TurnReports, Agent.Valid, From, Repeats, LastFingerprint,
           NeverStuckBefore, Bag;
      if pendingMessages != [] {
        ResetGuard();
        InjectAll(pendingMessages);
        pendingMessages := [];
      }
    }

    // ---------------------------------------------------------------- one turn

    /** Nothing is pending and the guard has not fired: the state of the loop inside a turn. */
    ghost predicate MidTurn()
      reads this, agent
    {
      LoopOk() && pendingMessages == [] && !Stuck(ledger.history)
    }

    /** A hook may hand the loop another context. */
    method ReplaceContext(replacement: Option<seq<Message>>)
      modifies this`context
      ensures context == replacement.GetOr(old(context))
    {
      if replacement.Some? {
        context := replacement.value;
      }
    }

    /** Steering queued meanwhile is picked up unless an earlier poll already returned something. */
    method PollIfNonePending()
      requires agent.Valid() && Provenance(pendingMessages) && Grouped()
      modifies this`pendingMessages, this`ledger, this`skipInitialSteeringPoll, agent
      ensures agent.Valid() && Provenance(pendingMessages) && agent.Quiet() && agent.trace == old(agent.trace)
      ensures agent.Advances() && agent.effects == old(agent.effects) && Grouped()
      ensures ledger == old(ledger).(pendingOrigin := ledger.pendingOrigin)
      ensures if old(pendingMessages) != [] then pendingMessages == old(pendingMessages) && ledger == old(ledger)
              else pendingMessages in {[], old(agent.steering).Front()}
    {
      if pendingMessages == [] {
        PollSteering();
      }
    }

    /** Prepare the next turn after a completed one and announce it. */
    method NextTurn(nextContext: Option<seq<Message>>)
      requires LoopOk() && !Stuck(ledger.history) && StageOf(agent.trace) == BetweenTurns
      modifies this`context, this`pendingMessages, this`ledger, this`skipInitialSteeringPoll, agent
      ensures LoopOk() && !Stuck(ledger.history) && StageOf(agent.trace) == InTurn(multiset{}) && Kept()
      ensures context == nextContext.GetOr(old(context)) && ledger.history == old(ledger.history)
      ensures agent.Advances() && agent.effects == old(agent.effects)
      ensures old(pendingMessages) != [] ==> pendingMessages == old(pendingMessages)
    {
      hide StageOf, Committed, StartedCalls, TurnReports, Flatten, Agent.Valid, From, Repeats, LastFingerprint,
           NeverStuckBefore, Stuck, Bag;
      agent.Await();
      ReplaceContext(nextContext);
      PollIfNonePending();
      AnnounceTurn();
    }

    method AnnounceTurn()
      requires LoopOk() && StageOf(agent.trace) == BetweenTurns
      modifies agent
      ensures LoopOk() && StageOf(agent.trace) == InTurn(multiset{})
      ensures agent.Advances() && agent.effects == old(agent.effects)
    {
      hide Committed, StartedCalls, TurnReports, Flatten, Agent.Valid, From, Repeats, LastFingerprint,
           NeverStuckBefore, Stuck, Bag;
      agent.Emit(TurnStart);
    }

    /** Everything before the request of a turn; `first` is the turn the run was started with. */
    method OpenTurn(first: bool, t: TurnScript) returns (ghost opening: Opening)
      requires LoopOk() && !Stuck(ledger.history)
      requires StageOf(agent.trace) == if first then InTurn(multiset{}) else BetweenTurns
      modifies this, agent
      ensures MidTurn() && StageOf(agent.trace) == InTurn(multiset{}) && Kept() && agent.Advances()
      ensures agent.effects == old(agent.effects)
      ensures opening.Opens(t, first, agent.outset)
      ensures newMessages == old(newMessages) + opening.injected && context == opening.ContextFrom(old(context))
      ensures (first || old(pendingMessages) != []) ==> opening.injected == old(pendingMessages)
      ensures ledger.history == old(ledger.history) + MarksBefore(opening.injected)
    {
      hide Committed, StartedCalls, TurnReports, Flatten, From, Repeats, LastFingerprint, NeverStuckBefore, Stuck,
           StageOf, Books, Provenance, GuardMatches, Agent.Valid, Outset.OneGroup, Bag;
      if !first {
        NextTurn(t.nextContext);
      }
      opening := Opening(if first then None else t.nextContext, ChannelOf(ledger.pendingOrigin), pendingMessages,
                         t.requestContext);
      InjectPending();
      PrepareRequest(t.requestContext);
    }

    method PrepareRequest(requestContext: Option<seq<Message>>)
      requires MidTurn() && StageOf(agent.trace) == InTurn(multiset{})
      modifies this`context, agent
      ensures MidTurn() && StageOf(agent.trace) == InTurn(multiset{}) && agent.Onward()
      ensures agent.effects == old(agent.effects)
      ensures context == requestContext.GetOr(old(context))
    {
      hide StageOf, Committed, StartedCalls, TurnReports, Flatten, Agent.Valid, From, Repeats, LastFingerprint,
           NeverStuckBefore, Stuck, Bag;
      agent.Await();
      ReplaceContext(requestContext);
    }

    /** The open message is committed. */
    method CommitMessage(m: Message)
      requires MidTurn() && StageOf(agent.trace) == InMessage(multiset{})
      modifies this`newMessages, this`ledger, this`context, agent
      ensures MidTurn() && StageOf(agent.trace) == InTurn(multiset{}) && Kept() && agent.Onward()
      ensures Adds([m]) && agent.effects == old(agent.effects)
      ensures ledger.history == old(ledger.history)
    {
      hide Committed, StartedCalls, TurnReports, Flatten, From, Repeats, LastFingerprint, NeverStuckBefore, Stuck,
           Agent.Valid, Bag;
      assert (newMessages + [m])[ledger.offset..] == newMessages[ledger.offset..] + [m];
      Record(m, Modelled);
      agent.Emit(MessageEnd(m));
    }

    /** The results of a batch, already committed, join context and result list. */
    method TakeResults(results: seq<Message>)
      requires agent.Valid() && Provenance([]) && GuardMatches() && !Stuck(ledger.history) && pendingMessages == []
      requires Committed(agent.trace) == newMessages + results && ledger.offset <= |newMessages|
      requires agent.messages == ledger.transcript + newMessages[ledger.offset..] + results
      modifies this`newMessages, this`ledger, this`context
      ensures MidTurn() && Kept() && Adds(results)
      ensures ledger.history == old(ledger.history)
    {
      hide Committed, StageOf, StartedCalls, TurnReports, Flatten, Agent.Valid, From, Repeats, LastFingerprint,
           NeverStuckBefore, Stuck, Bag;
      assert (newMessages + results)[ledger.offset..] == newMessages[ledger.offset..] + results;
      RecordAll(results, Modelled);
    }

    /** The calls of a response are executed, or refused when it was cut off; `None` if the batch never settles. */
    method RunBatch(calls: seq<ToolCall>, truncated: bool, script: BatchScript)
        returns (b: Option<(seq<Message>, bool)>, ghost states: seq<CallState>)
      requires MidTurn() && StageOf(agent.trace) == InTurn(multiset{})
      modifies this`newMessages, this`ledger, this`context, agent
      ensures agent.Advances() && agent.Valid() && Recorded(states)
      ensures b.Some? ==>
        && MidTurn() && StageOf(agent.trace) == InTurn(multiset{}) && Kept()
        && Answers(calls, b.value.0) && Adds(b.value.0)
        && (|b.value.0| < |calls| ==> agent.scope.aborted)
        && BatchTold(Setting(), calls, truncated, script, b.value.0, states)
        && (truncated ==> !b.value.1) && (!truncated ==> (b.value.1 <==> AllTerminate(states)))
        && ledger.history == old(ledger.history)
      ensures SettlesCalls(Setting(), calls, truncated, script) ==> b.Some?
    {
      hide Committed, StageOf, StartedCalls, TurnReports, Flatten, Agent.Valid, From, Repeats, LastFingerprint,
           NeverStuckBefore, Stuck, StartsOf, CallOk, SettlesBatch, Played, Bag;
      states := [];
      if calls == [] {
        NoCalls();
        return Some(([], false)), [];
      }
      var batch := Unfinished;
      if truncated {
        batch, states := FailTruncated(calls, script);
        NoStarts(states);
      } else {
        batch, states := ExecuteToolCalls(calls, script);
      }
      if !batch.Batch? {
        return None, states;
      }
      TakeResults(batch.results);
      b := Some((batch.results, batch.terminate));
    }

    /**
      A transient failure after completed output: the checkpoint is committed and its calls are
      executed before the failure itself is shown. The message returned is open in the trace.
     */
    method Recover(r: Streamed, script: BatchScript)
        returns (failure: Option<AssistantMessage>, results: seq<Message>, ghost states: seq<CallState>)
      requires r.checkpoint.Some? && r.message.stopReason == Failure
      requires MidTurn() && StageOf(agent.trace) == InMessage(multiset{})
      modifies this`newMessages, this`ledger, this`context, agent
      ensures agent.Advances() && agent.Valid() && Recorded(states)
      ensures failure.Some? ==>
        && MidTurn() && StageOf(agent.trace) == InMessage(multiset{}) && Kept()
        && failure.value in {r.message, Interruption(r.message)}
        && Adds([r.checkpoint.value] + results)
        && Answers(CallsOf(r.checkpoint.value.content), results)
        && (|results| < |CallsOf(r.checkpoint.value.content)| ==> agent.scope.aborted)
        && BatchTold(Setting(), CallsOf(r.checkpoint.value.content), false, script, results, states)
        && ledger.history == old(ledger.history)
      ensures SettlesCalls(Setting(), CallsOf(r.checkpoint.value.content), false, script) ==> failure.Some?
    {
      hide MidTurn, LoopOk, Answers, CallsOf, StageOf, Committed, StartedCalls, TurnReports, Agent.Valid, Stuck,
           StartsOf, CallOk, SettlesCalls, BatchTold, Bag;
      CommitMessage(r.checkpoint.value);
      results := [];
      var b;
      b, states := RunBatch(CallsOf(r.checkpoint.value.content), false, script);
      if b.None? {
        return None, [], states;
      }
      results := b.value.0;
      var message := ShowFailure(r.message, b.value.1);
      Regroup(old(newMessages), [r.checkpoint.value], results);
      Regroup(old(context), [r.checkpoint.value], results);
      failure := Some(message);
    }

    method ShowFailure(failed: AssistantMessage, terminate: bool) returns (message: AssistantMessage)
      requires failed.stopReason == Failure
      requires MidTurn() && StageOf(agent.trace) == InTurn(multiset{})
      modifies agent
      ensures MidTurn() && StageOf(agent.trace) == InMessage(multiset{}) && agent.Onward()
      ensures agent.effects == old(agent.effects)
      ensures message in {failed, Interruption(failed)} && (terminate ==> message == Interruption(failed))
    {
      hide Committed, StartedCalls, TurnReports, Flatten, Agent.Valid, From, Repeats, LastFingerprint,
           NeverStuckBefore, Stuck, Bag;
      message := failed;
      if agent.scope.aborted || terminate {
        message := Interruption(failed);
      }
      agent.Emit(MessageStart(message));
    }

    /** A run that is over: one last `agent_end` carries the new messages, and nothing drained was dropped. */
    ghost predicate Closed()
      reads this, agent
    {
      && LoopOk() && pendingMessages == []
      && StageOf(agent.trace) == Ended
      && agent.trace[|agent.trace| - 1] == AgentEnd(newMessages)
    }

    method Finish()
      requires LoopOk() && pendingMessages == [] && StageOf(agent.trace) in {BetweenTurns, Closing}
      modifies agent
      ensures Closed() && agent.Onward() && agent.effects == old(agent.effects)
    {
      hide Committed, StartedCalls, TurnReports, Flatten, Agent.Valid, From, Repeats, LastFingerprint,
           NeverStuckBefore, Stuck, Bag;
      agent.Emit(AgentEnd(newMessages));
    }

    /** The no-progress guard: true when the turn just completed was the third equal one in a row. */
    method CheckProgress(message: AssistantMessage, results: seq<Message>, moreCalls: bool) returns (stuck: bool)
      requires GuardMatches() && !Stuck(ledger.history) && forall r | r in results :: r.ToolResult?
      modifies this`lastTurnFingerprint, this`turnFingerprintRepeats, this`ledger
      ensures GuardMatches() && (stuck <==> Stuck(ledger.history))
      ensures ledger == old(ledger).(history := old(ledger.history) + [MarkOf(message, results, moreCalls)])
    {
      var history := ledger.history;
      Continue(history, MarkOf(message, results, moreCalls));
      RepeatsSeeStuck(history + [MarkOf(message, results, moreCalls)]);
      if moreCalls {
        var fingerprint := FingerprintOf(message, results);
        AddTurn(history, fingerprint);
        if lastTurnFingerprint == Some(fingerprint) {
          turnFingerprintRepeats := turnFingerprintRepeats + 1;
        } else {
          lastTurnFingerprint, turnFingerprintRepeats := Some(fingerprint), 1;
        }
        ledger := ledger.(history := history + [Turn(fingerprint)]);
      } else {
        lastTurnFingerprint, turnFingerprintRepeats := None, 0;
        ledger := ledger.(history := history + [Reset]);
      }
      stuck := turnFingerprintRepeats >= REPEAT_LIMIT;
    }

    /** The run is stopped with an explicit error after its last turn. */
    method StopForNoProgress()
      requires LoopOk() && pendingMessages == [] && StageOf(agent.trace) == BetweenTurns
      modifies this`newMessages, this`ledger, this`context, agent
      ensures Closed() && Kept() && agent.Onward() && ledger.history == old(ledger.history)
      ensures Adds([STOP_MESSAGE]) && agent.effects == old(agent.effects)
    {
      hide Committed, StartedCalls, TurnReports, Flatten, Agent.Valid, From, Repeats, LastFingerprint,
           NeverStuckBefore, Stuck, Bag;
      assert (newMessages + [STOP_MESSAGE])[ledger.offset..] == newMessages[ledger.offset..] + [STOP_MESSAGE];
      Record(STOP_MESSAGE, Guarded);
      agent.EmitMessage(STOP_MESSAGE);
      Finish();
    }

    method EndTurn(message: AssistantMessage, results: seq<Message>)
      requires MidTurn() && StageOf(agent.trace) == InTurn(multiset{})
      modifies agent
      ensures MidTurn() && StageOf(agent.trace) == BetweenTurns
      ensures agent.Passes() && agent.effects == old(agent.effects)
      ensures TurnReports(agent.trace) == old(TurnReports(agent.trace)) + [TurnReport(message, results)]
    {
      hide Committed, StartedCalls, TurnReports, Flatten, Agent.Valid, From, Repeats, LastFingerprint,
           NeverStuckBefore, Stuck, Bag;
      agent.Emit(TurnEnd(message, results));
    }

    /** Everything after the last result of a turn; true when the run ends here. */
    method CloseTurn(message: AssistantMessage, results: seq<Message>, moreCalls: bool, stop: bool) returns (done: bool)
      requires MidTurn() && StageOf(agent.trace) == InTurn(multiset{}) && forall r | r in results :: r.ToolResult?
      modifies this, agent
      ensures agent.Valid() && Kept() && agent.Passes() && agent.effects == old(agent.effects)
      ensures TurnReports(agent.trace) == old(TurnReports(agent.trace)) + [TurnReport(message, results)]
      ensures done ==> Closed()
      ensures !done ==> LoopOk() && !Stuck(ledger.history) && StageOf(agent.trace) == BetweenTurns
      ensures ledger.history == old(ledger.history) + [MarkOf(message, results, moreCalls)]
      ensures Adds(if Stuck(ledger.history) then [STOP_MESSAGE] else [])
      ensures done <==> Stuck(ledger.history) || stop
    {
      hide Committed, StartedCalls, TurnReports, Flatten, Agent.Valid, From, Repeats, LastFingerprint,
           NeverStuckBefore, Stuck, FingerprintOf, StageOf, Bag;
      EndTurn(message, results);
      var stuck := CheckProgress(message, results, moreCalls);
      if stuck {
        StopForNoProgress();
        return true;
      }
      done := StopOrPoll(stop);
    }

    /** `shouldStopAfterTurn` decides before the queues are polled. */
    method StopOrPoll(stop: bool) returns (done: bool)
      requires MidTurn() && StageOf(agent.trace) == BetweenTurns
      modifies this`pendingMessages, this`ledger, this`skipInitialSteeringPoll, agent
      ensures Kept() && agent.Advances() && agent.effects == old(agent.effects)
      ensures if done then Closed() && ledger == old(ledger) else LoopOk() && StageOf(agent.trace) == BetweenTurns
      ensures ledger.history == old(ledger.history) && done == stop
    {
      hide Committed, StartedCalls, TurnReports, Flatten, Agent.Valid, From, Repeats, LastFingerprint,
           NeverStuckBefore, Stuck, Bag;
      agent.Await();
      if stop {
        Finish();
        return true;
      }
      PollSteering();
      done := false;
    }

    /** Request a response; its message is left open. */
    method OpenResponse(script: StreamScript) returns (r: Streamed, ghost request: Option<nat>)
      requires MidTurn() && StageOf(agent.trace) == InTurn(multiset{}) && Starts(script.events) <= 1
      modifies this`context, agent
      ensures MidTurn() && StageOf(agent.trace) == InMessage(multiset{}) && agent.Onward() && context == old(context)
      ensures script.Yields(r, !agent.scope.Admits())
      ensures agent.effects == old(agent.effects) + if request.Some? then [request.value] else []
      ensures r.checkpoint.Some? || r.message != ABORTED_MESSAGE ==> request.Some?
    {
      hide Committed, StartedCalls, TurnReports, Flatten, Agent.Valid, From, Repeats, LastFingerprint,
           NeverStuckBefore, Stuck, SplitFailure, Starts, Bag;
      r, request := StreamAssistantResponse(script);
    }

    /** Request a response and commit it, recovering completed output first where the response failed. */
    method Respond(t: TurnScript)
        returns (message: Option<AssistantMessage>, recovered: seq<Message>, ghost block: TurnBlock)
      requires MidTurn() && StageOf(agent.trace) == InTurn(multiset{}) && Starts(t.stream.events) <= 1
      modifies this`newMessages, this`ledger, this`context, agent
      ensures agent.Valid() && agent.Advances() && block.OnRecord(cfg)
      ensures Bag(agent.effects) == Bag(old(agent.effects)) + block.Effects()
      ensures message.Some? ==>
        && MidTurn() && StageOf(agent.trace) == InTurn(multiset{}) && Kept()
        && ledger.history == old(ledger.history)
        && block.message == message.value && block.recovered == recovered
        && block.results == [] && block.calls == [] && !block.more && !block.stuck
        && Adds(block.Response()) && block.Recovers(agent.scope.aborted)
        && block.Delivers(t.stream, !agent.scope.Admits()) && block.Redoes(t, Setting())
        && (block.Requested() ==> block.request.Some?)
      ensures t.Recovers(Setting()) ==> message.Some?
    {
      hide Committed, StartedCalls, TurnReports, Flatten, From, Repeats, LastFingerprint, NeverStuckBefore, Stuck,
           StageOf, Starts, TurnBlock.Recovers, TurnBlock.Response, Answers, Books, Provenance, GuardMatches,
           Agent.Valid, TurnBlock.Delivers, SplitFailure, BatchTold, StartsOf, CallOk, TurnBlock.Effects,
           SettlesCalls, CallsOf, Bag;
      var r;
      ghost var request, start := None, agent.effects;
      r, request := OpenResponse(t.stream);
      ghost var mid := agent.effects;
      ghost var shut := !agent.scope.Admits();
      NoCalls();
      recovered := [];
      message := Some(r.message);
      block := TurnBlock(request, None, [], [], r.message, [], [], false, false);
      if t.Recovers(Setting()) && r.checkpoint.Some? {
        YieldsRecover(t, Setting(), r, shut);
      }
      if r.checkpoint.Some? {
        ghost var states;
        message, recovered, states := Recover(r, t.recovery);
        block := TurnBlock(request, r.checkpoint, recovered, states, message.GetOr(r.message), [], [], false, false);
        ResponseEffects(block, start, mid, agent.effects);
        if message.None? {
          return None, [], block;
        }
      }
      ResponseEffects(block, start, mid, agent.effects);
      ghost var aborted := agent.scope.aborted;
      CommitMessage(message.value);
      if r.checkpoint.Some? {
        RecoveredBlock(block, r.checkpoint.value, aborted, agent.scope.aborted);
      } else {
        PlainBlock(block, agent.scope.aborted);
      }
      Delivered(block, t.stream, r, shut, !agent.scope.Admits());
    }

    /** A failed or aborted response ends its turn and the run. */
    method EndFailed(message: AssistantMessage, results: seq<Message>)
      requires MidTurn() && StageOf(agent.trace) == InTurn(multiset{})
      modifies agent
      ensures Closed() && agent.Passes() && agent.Valid() && !Stuck(ledger.history)
      ensures agent.effects == old(agent.effects)
      ensures TurnReports(agent.trace) == old(TurnReports(agent.trace)) + [TurnReport(message, results)]
    {
      hide Committed, StartedCalls, TurnReports, Flatten, Agent.Valid, From, Repeats, LastFingerprint,
           NeverStuckBefore, Stuck, Bag;
      EndTurn(message, results);
      Finish();
    }

    /** Answer the calls of a completed response and close the turn. */
    method UseTools(message: AssistantMessage, t: TurnScript)
        returns (status: Status, hasMoreToolCalls: bool, ghost results: seq<Message>, ghost states: seq<CallState>)
      requires MidTurn() && StageOf(agent.trace) == InTurn(multiset{})
      modifies this, agent
      ensures agent.Valid() && agent.Passes() && Recorded(states)
      ensures status != Interrupted ==> Kept()
      ensures status == Finished ==> Closed()
      ensures status == Running ==> LoopOk() && !Stuck(ledger.history) && StageOf(agent.trace) == BetweenTurns
      ensures status != Interrupted ==>
        && Adds(results + if Stuck(ledger.history) then [STOP_MESSAGE] else [])
        && Answers(CallsOf(message.content), results)
        && (|results| < |CallsOf(message.content)| ==> agent.scope.aborted)
        && BatchTold(Setting(), CallsOf(message.content), message.stopReason == Length, t.batch, results, states)
        && (status == Finished <==> Stuck(ledger.history) || t.stop)
        && ledger.history == old(ledger.history) + [MarkOf(message, results, hasMoreToolCalls)]
        && TurnReports(agent.trace) == old(TurnReports(agent.trace)) + [TurnReport(message, results)]
      ensures hasMoreToolCalls ==> CallsOf(message.content) != []
      ensures SettlesCalls(Setting(), CallsOf(message.content), message.stopReason == Length, t.batch) ==>
        status != Interrupted
    {
      hide Committed, StartedCalls, TurnReports, Flatten, Agent.Valid, From, Repeats, LastFingerprint,
           NeverStuckBefore, Stuck, StageOf, Bag, StartsOf, CallOk, CallsOf, Answers, BatchTold, SettlesCalls, MarkOf,
           MidTurn, LoopOk, Closed;
      var calls := CallsOf(message.content);
      hasMoreToolCalls, results := false, [];
      var b;
      b, states := RunBatch(calls, message.stopReason == Length, t.batch);
      if b.None? {
        return Interrupted, false, [], states;
      }
      var answers, terminate := b.value.0, b.value.1;
      results := answers;
      AnswersAreResults(calls, answers);
      hasMoreToolCalls := calls != [] && !terminate;
      ghost var messages, answered := newMessages, context;
      var done := CloseTurn(message, answers, hasMoreToolCalls, t.stop);
      ghost var stop := if Stuck(ledger.history) then [STOP_MESSAGE] else [];
      AddedTwice(old(newMessages), results, messages, stop, newMessages);
      AddedTwice(old(context), results, answered, stop, context);
      status := if done then Finished else Running;
    }

    /** One iteration of the inner loop, from its request on. */
    method RunTurn(t: TurnScript) returns (status: Status, hasMoreToolCalls: bool, ghost block: TurnBlock)
      requires MidTurn() && StageOf(agent.trace) == InTurn(multiset{}) && Starts(t.stream.events) <= 1
      modifies this, agent
      ensures agent.Valid() && agent.Passes() && block.OnRecord(cfg)
      ensures Bag(agent.effects) == Bag(old(agent.effects)) + block.Effects()
      ensures status != Interrupted ==> Kept()
      ensures status == Finished ==> Closed()
      ensures status == Running ==> LoopOk() && !Stuck(ledger.history) && StageOf(agent.trace) == BetweenTurns
      ensures status != Interrupted ==>
        && Adds(block.Flat()) && block.Delivers(t.stream, !agent.scope.Admits())
        && block.Redoes(t, Setting()) && block.Does(t, Setting())
        && (block.Requested() ==> block.request.Some?)
        && block.Recovers(agent.scope.aborted) && block.Answered(agent.scope.aborted)
        && (status == Finished <==> block.Failed() || block.stuck || t.stop)
        && (block.stuck <==> Stuck(ledger.history)) && hasMoreToolCalls == block.more
        && ledger.history == old(ledger.history) + block.Marks()
        && TurnReports(agent.trace) == old(TurnReports(agent.trace)) + [block.Report()]
      ensures t.Settles(Setting()) ==> status != Interrupted
    {
      hide Committed, StartedCalls, TurnReports, Flatten, From, Repeats, LastFingerprint, NeverStuckBefore, Stuck,
           Starts, StageOf, Books, Provenance, GuardMatches, Agent.Valid, MarkOf, TurnBlock.Recovers,
           TurnBlock.Answered, TurnBlock.Flat, TurnBlock.Marks, TurnBlock.Response, Answers, TurnBlock.Delivers,
           MidTurn, LoopOk, Closed, Grouped, CallsOf, BatchTold, StartsOf, CallOk, TurnScript.Recovers, SettlesCalls,
           TurnBlock.Redoes, TurnBlock.Does, TurnBlock.Report, TurnBlock.Effects, TurnBlock.OnRecord, Bag;
      hasMoreToolCalls := false;
      var message, recovered;
      message, recovered, block := Respond(t);
      SettlesRecovers(t, Setting());
      if message.None? {
        status := Interrupted;
      } else if message.value.stopReason == Failure || message.value.stopReason == Aborted {
        ghost var before := agent.scope;
        EndFailed(message.value, recovered);
        status := Finished;
        NoToolsDone(block, t, Setting());
        FailedBlock(block, before.aborted, agent.scope.aborted);
        DeliversStays(block, block, t.stream, !before.Admits(), !agent.scope.Admits());
      } else {
        ghost var results, states, response, before := [], [], block, agent.scope;
        DeliveredSettles(response, t, Setting(), !before.Admits());
        status, hasMoreToolCalls, results, states := UseTools(message.value, t);
        block := response.(results := results, calls := states, more := hasMoreToolCalls,
                           stuck := Stuck(ledger.history));
        SameRecovery(response, block, t, Setting());
        OnRecordToo(response, block, cfg);
        Associate(Bag(old(agent.effects)), response.Effects(), StartsOf(states));
        if status != Interrupted {
          ToolsDone(block, t, Setting());
          FinishBlock(old(newMessages), old(context), response, block, before.aborted, agent.scope.aborted);
          DeliversStays(response, block, t.stream, !before.Admits(), !agent.scope.Admits());
        }
      }
    }

    // ---------------------------------------------------------------- runs

    /** What the loop head knows: `first` is true only before the first turn of a prompt or continue. */
    ghost predicate AtHead(first: bool)
      reads this, agent
    {
      LoopOk() && !Stuck(ledger.history) && StageOf(agent.trace) == if first then InTurn(multiset{}) else BetweenTurns
    }

    ghost function Now(): Standing
      reads this, agent
    {
      Standing(newMessages, context, ledger.history, TurnReports(agent.trace))
    }

    /** The story of a run, or of a part of it: what has happened since `before`. */
    ghost predicate Tells(before: Standing, story: seq<StoryStep>, turns: seq<TurnScript>, prompted: bool)
      reads this, agent
    {
      Leads(before, story, Now(), turns, prompted, Setting(), agent.scope)
    }

    /** The effects since there were only these are those of the story. */
    ghost predicate OnTheRecord(effects: seq<nat>, story: seq<StoryStep>)
      reads agent
    {
      agent.effects == effects + Started(story) && OnRecord(story, cfg)
    }

    /** A whole turn: it adds one step to the story told since `before`; a turn left in the middle adds its effects. */
    method TakeTurn(first: bool, t: TurnScript, ghost before: Standing, ghost effects: seq<nat>,
                    ghost told: seq<StoryStep>, ghost turns: seq<TurnScript>, ghost prompted: bool)
        returns (status: Status, hasMoreToolCalls: bool, ghost story: seq<StoryStep>)
      requires AtHead(first) && Starts(t.stream.events) <= 1
      requires |told| < |turns| && t == turns[|told|] && first == (prompted && told == [])
      requires Tells(before, told, turns, prompted) && Going(told, turns) && OnTheRecord(effects, told)
      modifies this, agent
      ensures agent.Valid() && agent.Passes() && |story| == |told| + 1 && OnTheRecord(effects, story)
      ensures status == Finished ==> Closed()
      ensures status == Running ==> AtHead(false) && Going(story, turns)
      ensures status != Interrupted ==> Kept() && Tells(before, story, turns, prompted) && Over(story, turns)
      ensures t.Settles(Setting()) ==> status != Interrupted
    {
      hide Committed, StartedCalls, TurnReports, Flatten, From, Repeats, LastFingerprint, NeverStuckBefore, Stuck,
           Starts, StageOf, Books, Provenance, GuardMatches, Grouped, Agent.Valid, Leads, Going, Over, OnRecord,
           TurnBlock.Flat, TurnBlock.Recovers, TurnBlock.Answered, TurnBlock.Delivers, TurnBlock.Marks,
           TurnBlock.Redoes, TurnBlock.Does, TurnBlock.Effects, TurnBlock.OnRecord, TurnBlock.Report, MarksBefore,
           Opening.Opens, Opening.ContextFrom, TurnScript.Settles, Started, Bag,
           LoopOk, MidTurn, Closed, TurnBlock.Failed, TurnBlock.Requested;
      ghost var now, was, started := Now(), agent.scope, agent.effects;
      ghost var opening := OpenTurn(first, t);
      ghost var block;
      status, hasMoreToolCalls, block := RunTurn(t);
      ghost var step := StoryStep(opening, block, agent.effects[|started|..]);
      story := told + [step];
      RecordGrows(told, step, cfg, effects, started, agent.effects);
      if status != Interrupted {
        LeadsOn(before, told, now, step, Now(), turns, prompted, Setting(), was, agent.scope);
        GoingGrows(told, step, turns);
      }
    }

    /**
      The inner loop: turns follow one another while there are tool calls to answer or messages to
      inject. It goes on with the story told since `before`.
     */
    method RunTurns(turns: seq<TurnScript>, prompted: bool, start: nat, ghost before: Standing,
                    ghost effects: seq<nat>, ghost told: seq<StoryStep>)
        returns (status: Status, k: nat, ghost story: seq<StoryStep>)
      requires AtHead(prompted && start == 0) && start == |told| <= |turns|
      requires forall t | t in turns :: Starts(t.stream.events) <= 1
      requires Tells(before, told, turns, prompted) && Going(told, turns) && OnTheRecord(effects, told)
      modifies this, agent
      ensures agent.Valid() && agent.Passes() && |story| <= |turns| && OnTheRecord(effects, story)
      ensures status == Running ==>
        AtHead(false) && pendingMessages == [] && start < k == |story| && Going(story, turns)
      ensures status == Finished ==> Closed()
      ensures status != Interrupted ==> Kept() && Tells(before, story, turns, prompted) && Over(story, turns)
      ensures status == Interrupted && AllSettle(turns, Setting()) ==>
        Tells(before, story, turns, prompted) && Going(story, turns) && |story| == |turns|
    {
      var first, hasMoreToolCalls := prompted && start == 0, true;
      k, story := start, told;
      hide Committed, StartedCalls, TurnReports, Flatten, From, Repeats, LastFingerprint, NeverStuckBefore, Stuck,
           Starts, StageOf, Books, Provenance, GuardMatches, Grouped, Agent.Valid, Leads, Going, Over, OnRecord,
           Tells, OnTheRecord, TurnScript.Settles, Bag;
      while hasMoreToolCalls || pendingMessages != []
        invariant start <= k == |story| <= |turns| && first == (prompted && k == 0)
        invariant AtHead(first) && agent.Valid() && agent.Passes() && Kept()
        invariant if k == start then hasMoreToolCalls else Over(story, turns)
        invariant Tells(before, story, turns, prompted) && Going(story, turns) && OnTheRecord(effects, story)
        decreases |turns| - k
      {
        if k == |turns| {
          return Interrupted, k, story;
        }
        status, hasMoreToolCalls, story := TakeTurn(first, turns[k], before, effects, story, turns, prompted);
        if status != Running {
          return;
        }
        first, k := false, k + 1;
      }
      status := Running;
    }

    /** Messages typed while the run was being set up are picked up before its first request. */
    method FirstPoll(first: bool)
      requires AtHead(first) && pendingMessages == []
      modifies this`pendingMessages, this`ledger, this`skipInitialSteeringPoll, agent
      ensures AtHead(first) && Kept() && agent.Valid() && agent.Advances()
      ensures ledger.history == old(ledger.history) && !Stuck(ledger.history) && agent.effects == old(agent.effects)
    {
      hide Committed, StartedCalls, TurnReports, Flatten, Agent.Valid, From, Repeats, LastFingerprint,
           NeverStuckBefore, Stuck, StageOf, Bag;
      PollSteering();
    }

    /** The agent would stop here: end the run unless follow-up messages are queued. */
    method TakeFollowUps() returns (done: bool)
      requires AtHead(false) && pendingMessages == []
      modifies this`pendingMessages, this`ledger, agent
      ensures Kept() && ledger.history == old(ledger.history)
      ensures if done then Closed() else AtHead(false) && pendingMessages != []
      ensures agent.Valid() && !Stuck(ledger.history) && agent.Advances() && agent.effects == old(agent.effects)
    {
      hide Committed, StartedCalls, TurnReports, Flatten, Agent.Valid, From, Repeats, LastFingerprint,
           NeverStuckBefore, Stuck, StageOf, Bag;
      PollFollowUps();
      done := pendingMessages == [];
      if done {
        Finish();
      }
    }

    /**
      The outer loop: a run that would stop takes up queued follow-up messages. `turns` is what the
      environment contributes; when it runs out the run is still going on and stays `Interrupted`.
     */
    method RunLoop(turns: seq<TurnScript>, recovered: bool) returns (status: Status, ghost story: seq<StoryStep>)
      requires AtHead(!recovered) && pendingMessages == []
      requires forall t | t in turns :: Starts(t.stream.events) <= 1
      modifies this, agent
      ensures status != Running && agent.Valid() && agent.Passes()
      ensures |story| <= |turns| && OnTheRecord(old(agent.effects), story)
      ensures status == Finished ==>
        Closed() && Kept() && Tells(old(Now()), story, turns, !recovered) && Over(story, turns)
      ensures status == Interrupted && AllSettle(turns, Setting()) ==>
        Tells(old(Now()), story, turns, !recovered) && Going(story, turns) && |story| == |turns|
    {
      hide Committed, StartedCalls, TurnReports, Flatten, From, Repeats, LastFingerprint, NeverStuckBefore, Stuck,
           Starts, StageOf, Books, Provenance, GuardMatches, Grouped, Agent.Valid, Leads, Going, Over, OnRecord,
           TurnScript.Settles, LoopOk, AtHead, Closed, Bag;
      ghost var before, effects := Now(), agent.effects;
      FirstPoll(!recovered);
      var k, done := 0, false;
      story := [];
      LeadsNowhere(before, turns, !recovered, Setting(), agent.scope);
      NothingOnRecord(cfg, effects);
      assert Now() == before;
      while !done
        invariant k == |story| <= |turns| && agent.Valid() && agent.Passes() && Kept()
        invariant if done then Closed() && Over(story, turns)
                  else AtHead(!recovered && k == 0) && Going(story, turns)
        invariant Tells(before, story, turns, !recovered) && OnTheRecord(effects, story)
        decreases |turns| - k, !done
      {
        status, k, story := RunTurns(turns, !recovered, k, before, effects, story);
        if status != Running {
          return;
        }
        ghost var was := agent.scope;
        done := TakeFollowUps();
        LeadsStill(before, story, Now(), turns, !recovered, Setting(), was, agent.scope);
      }
      status := Finished;
    }
  }
}
