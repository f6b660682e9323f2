/**
  The three ways to start a run: with prompts, from the current context, and by resuming a tool
  batch that was interrupted half-way
  (packages/agent/src/agent-loop.ts, packages/agent/src/agent.ts).
 */
module AgentRuns {
  import opened Wrappers
  import opened Transcript
  import opened RunScopes
  import opened Agents
  import opened NoProgress
  import opened ToolCalls
  import opened AgentLoops

  /** What a run that begins now finds. */
  ghost function Found(agent: Agent): Outset
    reads agent
  {
    Outset(agent.scope, agent.steering, agent.followUps, agent.tape)
  }

  /** A loop that has not started, over an agent whose run begins now. */
  ghost predicate Fresh(loop: AgentLoop)
    reads loop, loop.agent
  {
    && loop.agent.Valid() && loop.agent.trace == [] && loop.agent.effects == []
    && loop.agent.outset == Found(loop.agent) && loop.agent.awaited == 0
    && loop.agent.drainedSteering == [] && loop.agent.drainedFollowUps == []
    && loop.newMessages == [] && loop.pendingMessages == []
    && loop.lastTurnFingerprint == None && loop.turnFingerprintRepeats == 0
    && loop.ledger == Ledger([], Steered, [], 0, loop.agent.messages)
  }

  /** Whether a run may be continued from this context. */
  predicate Continuable(context: seq<Message>) {
    context != [] &&
    var last := context[|context| - 1];
    last.Assistant? ==> last.isCheckpoint && last.stopReason == Stop
  }

  /**
    What other code has done is what the first entries of its tape say: the scope is cancelled exactly
    if it has been told so, of everything found in a queue or queued since each message was either
    injected once, in order, or is queued still, and no provider request or tool execution began in an
    inactive run or behind a cancellation.
   */
  ghost predicate HostObeyed(loop: AgentLoop, found: Outset)
    reads loop, loop.agent
  {
    var agent, n := loop.agent, loop.agent.awaited;
    && n <= |found.tape| && agent.tape == found.tape[n..] && |loop.ledger.origins| == |loop.newMessages|
    && var heard := Ops(found.tape[..n]);
    && agent.scope == ScopeAfter(found.scope, heard)
    && found.steering.Contents() + QueuedBy(heard, Steering) ==
         From(loop.newMessages, loop.ledger.origins, Steered) + agent.steering.Contents()
    && found.followUps.Contents() + QueuedBy(heard, FollowUps) ==
         From(loop.newMessages, loop.ledger.origins, Followed) + agent.followUps.Contents()
    && forall k | k in agent.effects :: k <= n && found.scope.Admits() && Cancel !in Ops(found.tape[..k])
  }

  /**
    What a finished run promises: one well-formed trace whose committed messages are the new ones,
    in order; the same messages behind what the transcript was; and no placeholder left.
   */
  ghost predicate RunDone(loop: AgentLoop, transcript: seq<Message>)
    reads loop, loop.agent
  {
    && StageOf(loop.agent.trace) == Ended
    && loop.agent.trace[|loop.agent.trace| - 1] == AgentEnd(loop.newMessages)
    && Committed(loop.agent.trace) == loop.newMessages
    && loop.agent.messages == transcript + loop.newMessages
    && loop.agent.streamingMessage == None
  }

  lemma ClosedIsDone(loop: AgentLoop)
    requires loop.Closed() && loop.ledger.offset == 0
    ensures RunDone(loop, loop.ledger.transcript)
  {
    assert loop.newMessages[0..] == loop.newMessages;
    hide Committed, Flatten, From, NeverStuckBefore, Repeats, LastFingerprint, Agent.Conserved;
  }

  lemma ClosedObeyed(loop: AgentLoop)
    requires loop.Closed()
    ensures HostObeyed(loop, loop.agent.outset)
  {
    hide Committed, Flatten, From, NeverStuckBefore, Repeats, LastFingerprint, StageOf, QueuedBy, Ops;
    var agent := loop.agent;
    forall k | k in agent.effects
      ensures k <= agent.awaited && agent.outset.scope.Admits() && Cancel !in Ops(agent.outset.tape[..k])
    {
      assert ScopeAfter(agent.outset.scope, agent.HeardBy(k)).Admits();
    }
  }

  /** No hook of these turns replaces the context. */
  predicate KeepsContext(turns: seq<TurnScript>) {
    forall t | t in turns :: t.nextContext.None? && t.requestContext.None?
  }

  /**
    What a finished story of turns promises: result list, context and reports are what it makes of them,
    turn by turn as scripted, with nothing behind the turn that ended it; where no hook replaces the
    context it gains exactly the new messages; and the guard fired if and only if it had to.
   */
  ghost predicate StoryDone(loop: AgentLoop, messages: seq<Message>, context: seq<Message>, reports: seq<TurnReport>,
                            story: seq<StoryStep>, turns: seq<TurnScript>, prompted: bool)
    reads loop, loop.agent
  {
    && loop.newMessages == messages + Told(story) && loop.context == ContextAfter(context, story)
    && (KeepsContext(turns) ==> loop.context == context + Told(story))
    && TurnReports(loop.agent.trace) == reports + ReportsOf(story)
    && Sound(story, loop.agent.scope.aborted)
    && Follows(story, turns, prompted, loop.Setting(), !loop.agent.scope.Admits())
    && (story == [] || Over(story, turns)) && GuardExact(story)
  }

  lemma ContextGains(context: seq<Message>, story: seq<StoryStep>, turns: seq<TurnScript>, prompted: bool,
                     u: Setup, shut: bool)
    requires Follows(story, turns, prompted, u, shut) && KeepsContext(turns)
    ensures ContextAfter(context, story) == context + Told(story)
  {
    hide TurnBlock.Delivers, Outset.OneGroup, BatchTold, ContextAfter, Told;
    forall i | 0 <= i < |story|
      ensures story[i].opening.nextContext.None? && story[i].opening.requestContext.None?
    {
      assert story[i].Scripted(turns[i], prompted && i == 0, u, shut);
      assert turns[i] in turns;
    }
    ContextKept(context, story);
  }

  lemma StoryIsDone(loop: AgentLoop, before: Standing, story: seq<StoryStep>, turns: seq<TurnScript>, prompted: bool)
    requires loop.Closed() && before.history == []
    requires loop.Tells(before, story, turns, prompted) && Over(story, turns)
    ensures StoryDone(loop, before.messages, before.context, before.reports, story, turns, prompted)
  {
    hide Marks, ReportsOf, TurnReports, Stuck, Sound, Ongoing, EndsStuck, GuardExact, NeverStuckBefore, Told,
         ContextAfter, Follows, Agent.Valid;
    assert [] + Marks(story) == Marks(story);
    assert NeverStuckBefore(loop.ledger.history);
    if KeepsContext(turns) {
      ContextGains(before.context, story, turns, prompted, loop.Setting(), !loop.agent.scope.Admits());
    }
    GuardSeesRun(story, loop.agent.scope.aborted);
  }

  /** What starts after `at` awaits starts in an active run and ahead of any cancellation. */
  ghost predicate Admitted(found: Outset, at: nat) {
    at <= |found.tape| && found.scope.Admits() && Cancel !in Ops(found.tape[..at])
  }

  /** These tools were executed at most once, and only where they were admitted. */
  ghost predicate ToolsAdmitted(calls: seq<CallState>, found: Outset) {
    forall i | 0 <= i < |calls| && calls[i].starts > 0 ::
      calls[i].starts == 1 && Admitted(found, calls[i].startedUnder.at)
  }

  /** The request of a turn and all its tool executions, those of recovered calls included, were admitted. */
  ghost predicate TurnAdmitted(b: TurnBlock, found: Outset) {
    && (b.request.Some? ==> Admitted(found, b.request.value))
    && ToolsAdmitted(b.redone, found) && ToolsAdmitted(b.calls, found)
  }

  ghost predicate EffectsAdmitted(story: seq<StoryStep>, found: Outset) {
    forall i | 0 <= i < |story| :: TurnAdmitted(story[i].block, found)
  }

  /** A moment at which an effect was started was one at which it could be. */
  lemma MomentAdmits(agent: Agent, k: nat)
    requires agent.Valid() && k in agent.effects
    ensures Admitted(agent.outset, k)
  {
    hide StageOf, Ops, Agent.Conserved;
    assert ScopeAfter(agent.outset.scope, agent.HeardBy(k)).Admits();
  }

  lemma {:induction false} CallsAdmitted(agent: Agent, cfg: Config, calls: seq<CallState>)
    requires agent.Valid() && (forall i | 0 <= i < |calls| :: CallOk(cfg, calls[i]))
    requires forall k | k in StartsOf(calls) :: k in agent.effects
    ensures ToolsAdmitted(calls, agent.outset)
  {
    hide Agent.Valid, StartsOf, Admitted;
    forall i | 0 <= i < |calls| && calls[i].starts > 0
      ensures calls[i].starts == 1 && Admitted(agent.outset, calls[i].startedUnder.at)
    {
      StartsHold(calls, i);
      MomentAdmits(agent, calls[i].startedUnder.at);
    }
  }

  lemma {:induction false} StartedHolds(story: seq<StoryStep>, i: nat)
    requires i < |story|
    ensures forall k | k in story[i].effects :: k in Started(story)
  {
    var n := |story| - 1;
    if i < n {
      StartedHolds(story[..n], i);
    }
  }

  /** Whatever is on record was admitted, so every request and tool execution was. */
  lemma RecordIsAdmitted(loop: AgentLoop, effects: seq<nat>, story: seq<StoryStep>)
    requires loop.agent.Valid() && loop.OnTheRecord(effects, story)
    ensures EffectsAdmitted(story, loop.agent.outset)
  {
    hide Agent.Valid, CallOk, StartsOf, Started, Admitted, ToolsAdmitted;
    var agent, cfg := loop.agent, loop.cfg;
    forall i | 0 <= i < |story| ensures TurnAdmitted(story[i].block, agent.outset) {
      var step, b := story[i], story[i].block;
      assert step.OnRecord(cfg);
      StartedHolds(story, i);
      assert forall k | k in b.Effects() :: k in Bag(step.effects) && k in step.effects;
      if b.request.Some? {
        assert b.request.value in b.Effects();
        MomentAdmits(agent, b.request.value);
      }
      CallsAdmitted(agent, cfg, b.redone);
      CallsAdmitted(agent, cfg, b.calls);
    }
  }

  /** `agent_start` and the first `turn_start`. */
  method Announce(agent: Agent)
    requires agent.Valid() && agent.trace == []
    modifies agent
    ensures agent.Onward() && StageOf(agent.trace) == InTurn(multiset{}) && agent.effects == old(agent.effects)
    ensures agent.messages == old(agent.messages) && Committed(agent.trace) == [] && StartedCalls(agent.trace) == []
    ensures TurnReports(agent.trace) == []
  {
    agent.Emit(AgentStart);
    agent.Emit(TurnStart);
  }

  method EmitPrompts(agent: Agent, prompts: seq<Message>)
    requires agent.Valid() && StageOf(agent.trace) == InTurn(multiset{}) && Committed(agent.trace) == []
    modifies agent
    ensures agent.Onward() && StageOf(agent.trace) == InTurn(multiset{}) && agent.effects == old(agent.effects)
    ensures TurnReports(agent.trace) == old(TurnReports(agent.trace))
    ensures agent.messages == old(agent.messages) + prompts && Committed(agent.trace) == prompts
  {
    assert prompts[..0] == [];
    hide StageOf, Committed, StartedCalls, TurnReports, Agent.Valid;
    for i := 0 to |prompts|
      invariant agent.Onward() && StageOf(agent.trace) == InTurn(multiset{}) && agent.effects == old(agent.effects)
      invariant agent.messages == old(agent.messages) + prompts[..i] && Committed(agent.trace) == prompts[..i]
    {
      assert prompts[..i + 1] == prompts[..i] + [prompts[i]];
      Regroup(old(agent.messages), prompts[..i], [prompts[i]]);
      agent.EmitMessage(prompts[i]);
    }
    assert prompts[..|prompts|] == prompts;
  }

  /** Announce the run and commit its prompts. */
  method StartPrompts(loop: AgentLoop, prompts: seq<Message>)
    requires Fresh(loop)
    modifies loop, loop.agent
    ensures loop.AtHead(true) && loop.pendingMessages == [] && loop.newMessages == prompts
    ensures loop.context == old(loop.context) + prompts && loop.agent.effects == []
    ensures TurnReports(loop.agent.trace) == []
    ensures loop.ledger == old(loop.ledger).(origins := loop.ledger.origins)
  {
    hide Committed, StartedCalls, TurnReports, Flatten, StageOf, Agent.Valid;
    Announce(loop.agent);
    EmitPrompts(loop.agent, prompts);
    loop.RecordAll(prompts, Prompted);
    assert loop.newMessages[0..] == prompts;
  }

  /**
    A new run with the given prompts. Finished or not, every request and tool execution was admitted;
    and a run whose turns settle their tool calls goes on until it is over or has run out of turns.
   */
  method RunAgentLoop(loop: AgentLoop, prompts: seq<Message>, turns: seq<TurnScript>)
      returns (status: Status, ghost story: seq<StoryStep>)
    requires Fresh(loop) && forall t | t in turns :: Starts(t.stream.events) <= 1
    modifies loop, loop.agent
    ensures status != Running && loop.agent.Valid() && |story| <= |turns|
    ensures loop.OnTheRecord([], story) && EffectsAdmitted(story, old(Found(loop.agent)))
    ensures status == Finished ==>
      && RunDone(loop, old(loop.agent.messages)) && HostObeyed(loop, old(Found(loop.agent)))
      && story != [] && StoryDone(loop, prompts, old(loop.context) + prompts, [], story, turns, true)
    ensures status == Finished && KeepsContext(turns) ==> loop.context == old(loop.context) + loop.newMessages
    ensures status == Interrupted && AllSettle(turns, loop.Setting()) ==>
      |story| == |turns| && Going(story, turns) && loop.newMessages == prompts + Told(story)
  {
    StartPrompts(loop, prompts);
    ghost var before := loop.Now();
    hide Committed, StartedCalls, TurnReports, Flatten, Stuck, Starts, StageOf, From, RunDone, HostObeyed, StoryDone,
         Agent.Valid, Told, ContextAfter, Marks, Sound, Follows, EndsStuck, Going, Over, TurnScript.Settles,
         EffectsAdmitted, AgentLoop.OnTheRecord;
    status, story := loop.RunLoop(turns, false);
    RecordIsAdmitted(loop, [], story);
    if status == Finished {
      ClosedIsDone(loop);
      ClosedObeyed(loop);
      StoryIsDone(loop, before, story, turns, true);
      GainsNew(loop, old(loop.context), prompts, story, turns);
    }
  }

  lemma GainsNew(loop: AgentLoop, context: seq<Message>, prompts: seq<Message>, story: seq<StoryStep>,
                 turns: seq<TurnScript>)
    requires StoryDone(loop, prompts, context + prompts, [], story, turns, true)
    ensures KeepsContext(turns) ==> loop.context == context + loop.newMessages
  {
    Regroup(context, prompts, Told(story));
  }

  /** A run over the context as it is; `None` stands for the error thrown when that is not allowed. */
  method RunAgentLoopContinue(loop: AgentLoop, turns: seq<TurnScript>)
      returns (status: Option<Status>, ghost story: seq<StoryStep>)
    requires Fresh(loop) && forall t | t in turns :: Starts(t.stream.events) <= 1
    modifies loop, loop.agent
    ensures status.Some? <==> Continuable(old(loop.context))
    ensures status.None? ==> loop.agent.trace == [] && loop.agent.messages == old(loop.agent.messages)
    ensures status.Some? ==> status.value != Running && loop.agent.Valid() && |story| <= |turns|
    ensures status.Some? ==> loop.OnTheRecord([], story) && EffectsAdmitted(story, old(Found(loop.agent)))
    ensures status == Some(Finished) ==>
      && RunDone(loop, old(loop.agent.messages)) && HostObeyed(loop, old(Found(loop.agent)))
      && story != [] && StoryDone(loop, [], old(loop.context), [], story, turns, true)
    ensures status == Some(Finished) && KeepsContext(turns) ==>
      loop.context == old(loop.context) + loop.newMessages
    ensures status == Some(Interrupted) && AllSettle(turns, loop.Setting()) ==>
      |story| == |turns| && Going(story, turns) && loop.newMessages == [] + Told(story)
  {
    if !Continuable(loop.context) {
      return None, [];
    }
    hide *;
    var s;
    s, story := RunAgentLoop(loop, [], turns);
    assert old(loop.context) + [] == old(loop.context);
    status := Some(s);
  }

  // ------------------------------------------------------------------ resuming a tool batch

  /** `new Map(results.map((result) => [result.toolCallId, result]))`. */
  function ById(results: seq<Message>): map<string, Message>
    requires forall r | r in results :: r.ToolResult?
  {
    if results == [] then map[] else
      var last := results[|results| - 1];
      ById(results[..|results| - 1])[last.toolCallId := last]
  }

  /** `for (const result of results) completed.set(result.toolCallId, result)`. */
  function WithAll(completed: map<string, Message>, results: seq<Message>): map<string, Message>
    requires forall r | r in results :: r.ToolResult?
  {
    if results == [] then completed else
      var last := results[|results| - 1];
      WithAll(completed, results[..|results| - 1])[last.toolCallId := last]
  }

  /** The results at hand, in the order of their calls. */
  function Ordered(calls: seq<ToolCall>, results: map<string, Message>): seq<Message> {
    if calls == [] then [] else
      (if calls[0].id in results then [results[calls[0].id]] else []) + Ordered(calls[1..], results)
  }

  function Unresolved(calls: seq<ToolCall>, completed: map<string, Message>): seq<ToolCall> {
    if calls == [] then [] else
      (if calls[0].id in completed then [] else [calls[0]]) + Unresolved(calls[1..], completed)
  }

  predicate DistinctIds(calls: seq<ToolCall>) {
    forall i, j | 0 <= i < j < |calls| :: calls[i].id != calls[j].id
  }

  lemma {:induction false} ByIdHas(results: seq<Message>)
    requires forall r | r in results :: r.ToolResult?
    ensures forall id | id in ById(results) :: ById(results)[id] in results && ById(results)[id].toolCallId == id
    ensures forall i | 0 <= i < |results| :: results[i].toolCallId in ById(results)
    ensures (forall i, j | 0 <= i < j < |results| :: results[i].toolCallId != results[j].toolCallId) ==>
      forall i | 0 <= i < |results| :: ById(results)[results[i].toolCallId] == results[i]
  {
    if results != [] {
      ByIdHas(results[..|results| - 1]);
    }
  }

  lemma {:induction false} UnresolvedAre(calls: seq<ToolCall>, completed: map<string, Message>)
    requires DistinctIds(calls)
    ensures DistinctIds(Unresolved(calls, completed))
    ensures forall c | c in Unresolved(calls, completed) :: c in calls && c.id !in completed
    ensures forall c | c in calls && c.id !in completed :: c in Unresolved(calls, completed)
  {
    if calls != [] {
      UnresolvedAre(calls[1..], completed);
      assert forall c | c in calls :: c == calls[0] || c in calls[1..];
    }
  }

  /** When every call has a result, the merged list answers every call once, in source order. */
  lemma {:induction false} OrderedAnswersAll(calls: seq<ToolCall>, results: map<string, Message>)
    requires forall c | c in calls :: c.id in results
    ensures |Ordered(calls, results)| == |calls|
    ensures forall i | 0 <= i < |calls| :: Ordered(calls, results)[i] == results[calls[i].id]
  {
    if calls != [] {
      OrderedAnswersAll(calls[1..], results);
    }
  }

  lemma {:induction false} WithAllHas(completed: map<string, Message>, results: seq<Message>)
    requires forall r | r in results :: r.ToolResult?
    ensures forall id | id in completed && (forall r | r in results :: r.toolCallId != id) ::
      id in WithAll(completed, results) && WithAll(completed, results)[id] == completed[id]
    ensures forall i | 0 <= i < |results| :: results[i].toolCallId in WithAll(completed, results)
    ensures forall id | id in WithAll(completed, results) && id !in completed ::
      WithAll(completed, results)[id] in results && WithAll(completed, results)[id].toolCallId == id
  {
    if results != [] {
      WithAllHas(completed, results[..|results| - 1]);
    }
  }

  /**
    Merging never replaces a recovered result, and once the unresolved calls have all been answered
    the merged list holds exactly one result per call, in source order.
   */
  lemma MergeAnswersEachOnce(calls: seq<ToolCall>, completed: map<string, Message>, results: seq<Message>)
    requires DistinctIds(calls) && Answers(Unresolved(calls, completed), results)
    requires forall id | id in completed :: completed[id].ToolResult? && completed[id].toolCallId == id
    ensures forall r | r in results :: r.ToolResult? && r.toolCallId !in completed
    ensures var merged := WithAll(completed, results);
      && (forall id | id in completed :: id in merged && merged[id] == completed[id])
      && (|results| == |Unresolved(calls, completed)| ==>
            var ordered := Ordered(calls, merged);
            && |ordered| == |calls|
            && forall i | 0 <= i < |calls| :: ordered[i].ToolResult? && ordered[i].toolCallId == calls[i].id)
  {
    var pending := Unresolved(calls, completed);
    UnresolvedAre(calls, completed);
    forall r | r in results ensures r.ToolResult? && r.toolCallId !in completed {
      var i :| 0 <= i < |results| && results[i] == r;
      assert pending[i] in pending;
    }
    WithAllHas(completed, results);
    var merged := WithAll(completed, results);
    if |results| == |pending| {
      forall c | c in calls ensures c.id in merged {
        if c.id !in completed {
          var i :| 0 <= i < |pending| && pending[i] == c;
          assert results[i].toolCallId == c.id;
        }
      }
      OrderedAnswersAll(calls, merged);
    }
  }

  /** The checks before an interrupted batch is resumed: the assistant at `index`, and what was recovered of it. */
  predicate Resumable(messages: seq<Message>, index: nat, recovered: seq<Message>)
    requires forall r | r in recovered :: r.ToolResult?
  {
    && index < |messages| && messages[index].Assistant?
    && messages[index].stopReason !in {Failure, Aborted, Length}
    && var calls := CallsOf(messages[index].content);
    && calls != [] && DistinctIds(calls)
    && (forall i, j | 0 <= i < j < |recovered| :: recovered[i].toolCallId != recovered[j].toolCallId)
    && (forall r | r in recovered :: exists i ::
        0 <= i < |calls| && calls[i].id == r.toolCallId && calls[i].name == r.toolName)
    && (forall i | index < i < |messages| :: messages[i].ToolResult? && messages[i].toolCallId in ById(recovered))
  }

  lemma NoEffects(effects: seq<nat>)
    ensures effects == [] ==> Bag(effects) == multiset{}
  {
  }

  /** Execute only the unresolved calls of the batch and put all results in the order of their calls. */
  method ResumeBatch(loop: AgentLoop, calls: seq<ToolCall>, recovered: seq<Message>, script: BatchScript)
      returns (batch: BatchResult, ordered: seq<Message>, ghost states: seq<CallState>)
    requires Fresh(loop) && DistinctIds(calls) && forall r | r in recovered :: r.ToolResult?
    modifies loop.agent
    ensures loop.agent.Valid() && loop.agent.drainedSteering == [] && loop.agent.drainedFollowUps == []
    ensures Bag(loop.agent.effects) == StartsOf(states) && forall i | 0 <= i < |states| :: CallOk(loop.cfg, states[i])
    ensures TurnReports(loop.agent.trace) == []
    ensures SettlesBatch(loop.Setting(), Unresolved(calls, ById(recovered)), false, script) ==> batch.Batch?
    ensures batch.Batch? ==>
      BatchTold(loop.Setting(), Unresolved(calls, ById(recovered)), false, script, batch.results, states)
    ensures batch.Batch? ==>
      var done := ById(recovered);
      var pending := Unresolved(calls, done);
      && StageOf(loop.agent.trace) == InTurn(multiset{}) && Committed(loop.agent.trace) == batch.results
      && loop.agent.messages == old(loop.agent.messages) + batch.results
      && Answers(pending, batch.results) && (|batch.results| < |pending| ==> loop.agent.scope.aborted)
      && StartedCalls(loop.agent.trace) == Ids(pending[..|batch.results|])
      && (forall c | c in pending :: c in calls && c.id !in done)
      && (forall r | r in batch.results :: r.ToolResult?)
      && ordered == Ordered(calls, WithAll(done, batch.results))
      && (forall id | id in done :: id in WithAll(done, batch.results) && WithAll(done, batch.results)[id] == done[id])
      && (|batch.results| == |pending| ==>
            |ordered| == |calls| &&
            forall i | 0 <= i < |calls| :: ordered[i].ToolResult? && ordered[i].toolCallId == calls[i].id)
  {
    Announce(loop.agent);
    var done := ById(recovered);
    var pending := Unresolved(calls, done);
    hide Committed, StartedCalls, TurnReports, Flatten, StageOf, Bag, StartsOf, CallOk, Played, SettlesBatch,
         Agent.Valid;
    NoEffects(loop.agent.effects);
    batch, states := loop.ExecuteToolCalls(pending, script);
    ordered := [];
    if batch.Batch? {
      ByIdHas(recovered);
      UnresolvedAre(calls, done);
      AnswersAreResults(pending, batch.results);
      MergeAnswersEachOnce(calls, done, batch.results);
      ordered := Ordered(calls, WithAll(done, batch.results));
    }
  }

  lemma {:induction false} NoneOfOrigin(messages: seq<Message>, origins: seq<Origin>, origin: Origin)
    requires |messages| == |origins| && forall i | 0 <= i < |origins| :: origins[i] != origin
    ensures From(messages, origins, origin) == []
  {
    var n := |messages|;
    if n > 0 {
      NoneOfOrigin(messages[..n - 1], origins[..n - 1], origin);
    }
  }

  /**
    The batch is over: transcript and context become the messages up to its assistant followed by the
    merged results, while only the newly executed results count as new.
   */
  method InstallResults(loop: AgentLoop, all: seq<Message>, results: seq<Message>)
    requires loop.agent.Valid() && Committed(loop.agent.trace) == results
    requires loop.agent.drainedSteering == [] && loop.agent.drainedFollowUps == [] && loop.pendingMessages == []
    requires loop.lastTurnFingerprint == None && loop.turnFingerprintRepeats == 0
    modifies loop`context, loop`newMessages, loop`ledger, loop.agent`messages
    ensures loop.LoopOk() && loop.newMessages == results && loop.agent.messages == all
    ensures loop.ledger.offset == |results| && loop.ledger.transcript == all && loop.ledger.history == []
    ensures loop.context == all
  {
    hide *;
    ghost var origins := seq(|results|, i => Modelled);
    NoneQueued(results, origins);
    loop.context, loop.newMessages := all, results;
    loop.ledger := Ledger(origins, Steered, [], |results|, all);
    loop.agent.SetMessages(all);
    InstalledOk(loop, all, results);
  }

  lemma NoneQueued(results: seq<Message>, origins: seq<Origin>)
    requires |origins| == |results| && forall i | 0 <= i < |results| :: origins[i] == Modelled
    ensures From(results, origins, Steered) == [] && From(results, origins, Followed) == []
  {
    NoneOfOrigin(results, origins, Steered);
    NoneOfOrigin(results, origins, Followed);
  }

  lemma InstalledOk(loop: AgentLoop, all: seq<Message>, results: seq<Message>)
    requires loop.agent.Valid() && Committed(loop.agent.trace) == results == loop.newMessages
    requires loop.agent.drainedSteering == [] && loop.agent.drainedFollowUps == [] && loop.pendingMessages == []
    requires loop.lastTurnFingerprint == None && loop.turnFingerprintRepeats == 0
    requires |loop.ledger.origins| == |results| && loop.agent.messages == all
    requires loop.ledger == Ledger(loop.ledger.origins, Steered, [], |results|, all)
    requires From(results, loop.ledger.origins, Steered) == [] && From(results, loop.ledger.origins, Followed) == []
    ensures loop.LoopOk()
  {
    hide Agent.Valid, Committed, From;
    assert results[|results|..] == [] && all + [] == all;
  }

  method CloseResumed(loop: AgentLoop, assistant: Message, ordered: seq<Message>)
    requires loop.LoopOk() && StageOf(loop.agent.trace) == InTurn(multiset{}) && loop.ledger.history == []
    modifies loop.agent
    ensures loop.AtHead(false) && loop.agent.Passes() && loop.agent.effects == old(loop.agent.effects)
    ensures TurnReports(loop.agent.trace) == old(TurnReports(loop.agent.trace)) + [TurnReport(assistant, ordered)]
    ensures loop.agent.messages == old(loop.agent.messages)
  {
    hide Committed, StartedCalls, TurnReports, Flatten, StageOf, From;
    loop.agent.Emit(TurnEnd(assistant, ordered));
  }

  /** The transcript is the earlier one, plus what has become new since. */
  ghost predicate Extends(loop: AgentLoop, ledger: Ledger, earlier: seq<Message>)
    reads loop, loop.agent
  {
    && earlier <= loop.newMessages && ledger.offset <= |loop.newMessages|
    && loop.agent.messages == ledger.transcript + loop.newMessages[ledger.offset..]
  }

  lemma NoStory(loop: AgentLoop, turns: seq<TurnScript>)
    ensures StoryDone(loop, loop.newMessages, loop.context, TurnReports(loop.agent.trace), [], turns, false)
  {
    assert loop.newMessages + [] == loop.newMessages && loop.context + [] == loop.context;
    assert TurnReports(loop.agent.trace) + [] == TurnReports(loop.agent.trace);
  }

  /** After the resumed batch the run ends, or goes on with the turns that follow. */
  method ContinueResumed(loop: AgentLoop, terminate: bool, stop: bool, turns: seq<TurnScript>)
      returns (status: Status, ghost story: seq<StoryStep>)
    requires loop.AtHead(false) && loop.pendingMessages == [] && loop.ledger.history == []
    requires forall t | t in turns :: Starts(t.stream.events) <= 1
    modifies loop, loop.agent
    ensures status != Running && loop.agent.Valid() && loop.agent.Passes()
    ensures |story| <= |turns| && loop.OnTheRecord(old(loop.agent.effects), story)
    ensures status == Finished ==> loop.Closed() && Extends(loop, old(loop.ledger), old(loop.newMessages))
    ensures old(loop.agent.scope.aborted) || terminate ==>
      status == Finished && loop.newMessages == old(loop.newMessages)
    ensures status == Finished ==>
      StoryDone(loop, old(loop.newMessages), old(loop.context), old(TurnReports(loop.agent.trace)), story, turns, false)
    ensures status == Interrupted && AllSettle(turns, loop.Setting()) ==> |story| == |turns|
  {
    hide Committed, StartedCalls, TurnReports, Flatten, Stuck, Starts, StageOf, From, Repeats, LastFingerprint,
         NeverStuckBefore, StoryDone, Leads, Agent.Valid, OnRecord, Started, Told;
    story := [];
    ghost var before := loop.Now();
    NothingOnRecord(loop.cfg, loop.agent.effects);
    var over := loop.agent.scope.aborted || terminate;
    if !over {
      loop.agent.Await();
      over := stop;
    }
    if over {
      loop.Finish();
      status := Finished;
      NoStory(loop, turns);
    } else {
      status, story := loop.RunLoop(turns, true);
      if status == Finished {
        StoryIsDone(loop, before, story, turns, false);
      }
    }
    if status == Finished {
      ClosedExtends(loop, before.messages, before.context, before.reports, story, turns);
    }
  }

  lemma ClosedExtends(loop: AgentLoop, messages: seq<Message>, context: seq<Message>, reports: seq<TurnReport>,
                      story: seq<StoryStep>, turns: seq<TurnScript>)
    requires loop.Closed() && StoryDone(loop, messages, context, reports, story, turns, false)
    ensures Extends(loop, loop.ledger, messages)
  {
    hide Told, Agent.Valid, Committed, From;
  }

  /** Close the resumed turn and go on. */
  method FinishResumed(loop: AgentLoop, assistant: Message, kept: seq<Message>, ordered: seq<Message>,
                       batch: BatchResult, stop: bool, turns: seq<TurnScript>)
      returns (status: Status, ghost story: seq<StoryStep>)
    requires batch.Batch?
    requires loop.agent.Valid() && StageOf(loop.agent.trace) == InTurn(multiset{})
    requires Committed(loop.agent.trace) == batch.results && TurnReports(loop.agent.trace) == []
    requires loop.agent.drainedSteering == [] && loop.agent.drainedFollowUps == [] && loop.pendingMessages == []
    requires loop.lastTurnFingerprint == None && loop.turnFingerprintRepeats == 0
    requires forall t | t in turns :: Starts(t.stream.events) <= 1
    modifies loop, loop.agent
    ensures status != Running && loop.agent.Valid() && loop.agent.Passes()
    ensures |story| <= |turns| && loop.OnTheRecord(old(loop.agent.effects), story)
    ensures status == Finished ==>
      && loop.Closed() && batch.results <= loop.newMessages
      && loop.agent.messages == kept + ordered + loop.newMessages[|batch.results|..]
      && (old(loop.agent.scope.aborted) ==> loop.newMessages == batch.results)
      && StoryDone(loop, batch.results, kept + ordered, [TurnReport(assistant, ordered)], story, turns, false)
    ensures status == Interrupted && AllSettle(turns, loop.Setting()) ==> |story| == |turns|
  {
    hide Committed, StartedCalls, TurnReports, Flatten, Stuck, Starts, StageOf, From, Repeats, LastFingerprint,
         NeverStuckBefore, AgentLoop.Closed, AgentLoop.AtHead, AgentLoop.LoopOk, Agent.Valid, StoryDone,
         AgentLoop.OnTheRecord, TurnScript.Settles;
    InstallResults(loop, kept + ordered, batch.results);
    CloseResumed(loop, assistant, ordered);
    assert TurnReports(loop.agent.trace) == [TurnReport(assistant, ordered)];
    status, story := ContinueResumed(loop, batch.terminate, stop, turns);
  }

  /**
    `ordered` is what resuming made of the recovered results and the newly executed ones: only calls
    without a recovered result were executed, and none of the recovered results was replaced.
   */
  ghost predicate Merged(calls: seq<ToolCall>, recovered: seq<Message>, executed: seq<Message>, ordered: seq<Message>) {
    && (forall r | r in recovered :: r.ToolResult?) && (forall r | r in executed :: r.ToolResult?)
    && var done := ById(recovered);
    && Answers(Unresolved(calls, done), executed)
    && (forall id | id in done :: id in WithAll(done, executed) && WithAll(done, executed)[id] == done[id])
    && ordered == Ordered(calls, WithAll(done, executed))
    && (|executed| == |Unresolved(calls, done)| ==>
          |ordered| == |calls| &&
          forall i | 0 <= i < |calls| :: ordered[i].ToolResult? && ordered[i].toolCallId == calls[i].id)
  }

  lemma {:induction false} OrderedHolds(calls: seq<ToolCall>, results: map<string, Message>)
    ensures forall i | 0 <= i < |calls| && calls[i].id in results :: results[calls[i].id] in Ordered(calls, results)
  {
    if calls != [] {
      OrderedHolds(calls[1..], results);
      forall i | 0 <= i < |calls| && calls[i].id in results
        ensures results[calls[i].id] in Ordered(calls, results)
      {
        if i > 0 {
          assert calls[i] == calls[1..][i - 1];
        }
      }
    }
  }

  /** Whether or not the batch was completed, every recovered result is among the merged ones. */
  lemma RecoveredStay(messages: seq<Message>, index: nat, recovered: seq<Message>, executed: seq<Message>,
                      ordered: seq<Message>)
    requires (forall r | r in recovered :: r.ToolResult?) && Resumable(messages, index, recovered)
    requires Merged(CallsOf(messages[index].content), recovered, executed, ordered)
    ensures forall r | r in recovered :: r in ordered
  {
    hide CallsOf, ById, WithAll, Unresolved, Ordered;
    var calls, done := CallsOf(messages[index].content), ById(recovered);
    ByIdHas(recovered);
    OrderedHolds(calls, WithAll(done, executed));
    forall r | r in recovered ensures r in ordered {
      var k :| 0 <= k < |recovered| && recovered[k] == r;
      assert done[recovered[k].toolCallId] == r;
      var i :| 0 <= i < |calls| && calls[i].id == r.toolCallId;
    }
  }

  /** Replace what follows the assistant by the recovered results, then resume its batch. */
  method PrepareAndResume(loop: AgentLoop, calls: seq<ToolCall>, kept: seq<Message>, recovered: seq<Message>,
                          script: BatchScript)
      returns (batch: BatchResult, ordered: seq<Message>, ghost states: seq<CallState>)
    requires Fresh(loop) && DistinctIds(calls) && forall r | r in recovered :: r.ToolResult?
    modifies loop, loop.agent
    ensures loop.agent.Valid()
    ensures Bag(loop.agent.effects) == StartsOf(states) && forall i | 0 <= i < |states| :: CallOk(loop.cfg, states[i])
    ensures SettlesBatch(loop.Setting(), Unresolved(calls, ById(recovered)), false, script) ==> batch.Batch?
    ensures batch.Batch? ==>
      && TurnReports(loop.agent.trace) == []
      && BatchTold(loop.Setting(), Unresolved(calls, ById(recovered)), false, script, batch.results, states)
    ensures batch.Batch? ==>
      && StageOf(loop.agent.trace) == InTurn(multiset{}) && Committed(loop.agent.trace) == batch.results
      && loop.agent.drainedSteering == [] && loop.agent.drainedFollowUps == []
      && loop.pendingMessages == [] && loop.lastTurnFingerprint == None && loop.turnFingerprintRepeats == 0
      && Merged(calls, recovered, batch.results, ordered)
      && StartedCalls(loop.agent.trace) == Ids(Unresolved(calls, ById(recovered))[..|batch.results|])
      && (|ordered| < |calls| ==> loop.agent.scope.aborted)
  {
    loop.agent.SetMessages(kept + recovered);
    loop.context := kept + recovered;
    loop.ledger := Ledger([], Steered, [], 0, loop.agent.messages);
    hide Committed, StartedCalls, TurnReports, Flatten, StageOf, Unresolved, Ordered, WithAll, ById,
         Bag, StartsOf, CallOk, BatchTold, SettlesBatch, Agent.Valid;
    batch, ordered, states := ResumeBatch(loop, calls, recovered, script);
  }

  /**
    What resuming has brought about: the results of newly executed calls and what became of those calls,
    the merged results of the batch, the events and effects up to its end, and the turns that followed.
   */
  datatype Resumption = Resumption(
    executed: seq<Message>, calls: seq<CallState>, ordered: seq<Message>, events: seq<Event>, effects: seq<nat>,
    story: seq<StoryStep>)

  /**
    Resume an already committed tool batch; `None` stands for the errors thrown when that is not
    allowed. Only calls without a recovered result are started, and finished or not, none of them and
    nothing later in an inactive run or behind a cancellation. Afterwards the transcript is what preceded
    the batch, the merged results in source order and whatever later turns added; an incomplete batch
    occurs only in a cancelled run, which then ends.
   */
  method ResumeToolCalls(loop: AgentLoop, index: nat, recovered: seq<Message>, batch: BatchScript,
                         stop: bool, turns: seq<TurnScript>)
      returns (status: Option<Status>, ghost r: Resumption)
    requires Fresh(loop) && forall r | r in recovered :: r.ToolResult?
    requires forall t | t in turns :: Starts(t.stream.events) <= 1
    modifies loop, loop.agent
    ensures status.Some? <==> Resumable(old(loop.agent.messages), index, recovered)
    ensures status.None? ==> loop.agent.trace == [] && loop.agent.messages == old(loop.agent.messages)
    ensures status.Some? ==> status.value != Running && loop.agent.Valid()
    ensures status.Some? ==>
      && Bag(r.effects) == StartsOf(r.calls) && loop.OnTheRecord(r.effects, r.story)
      && ToolsAdmitted(r.calls, old(Found(loop.agent))) && EffectsAdmitted(r.story, old(Found(loop.agent)))
    ensures status == Some(Finished) ==>
      var calls, kept := CallsOf(old(loop.agent.messages)[index].content), old(loop.agent.messages)[..index + 1];
      var pending := Unresolved(calls, ById(recovered));
      && loop.Closed() && HostObeyed(loop, old(Found(loop.agent)))
      && Merged(calls, recovered, r.executed, r.ordered) && (forall m | m in recovered :: m in r.ordered)
      && BatchTold(loop.Setting(), pending, false, batch, r.executed, r.calls)
      && r.events <= loop.agent.trace && StageOf(r.events) == InTurn(multiset{}) && Committed(r.events) == r.executed
      && StartedCalls(r.events) == Ids(pending[..|r.executed|])
      && (|r.ordered| < |calls| ==> r.story == [])
      && loop.agent.messages == kept + r.ordered + Told(r.story)
      && StoryDone(loop, r.executed, kept + r.ordered, [TurnReport(old(loop.agent.messages)[index], r.ordered)],
                   r.story, turns, false)
    ensures status == Some(Interrupted) && AllSettle(turns, loop.Setting()) ==>
      var pending := Unresolved(CallsOf(old(loop.agent.messages)[index].content), ById(recovered));
      SettlesBatch(loop.Setting(), pending, false, batch) ==> |r.story| == |turns|
  {
    r := Resumption([], [], [], [], [], []);
    var messages := loop.agent.messages;
    if !Resumable(messages, index, recovered) {
      return None, r;
    }
    var assistant, kept := messages[index], messages[..index + 1];
    var calls := CallsOf(assistant.content);
    hide *;
    ghost var states, story;
    var b, merged;
    b, merged, states := PrepareAndResume(loop, calls, kept, recovered, batch);
    r := Resumption([], states, [], loop.agent.trace, loop.agent.effects, []);
    BatchIsAdmitted(loop, states);
    if !b.Batch? {
      NothingOnRecord(loop.cfg, r.effects);
      RecordIsAdmitted(loop, r.effects, []);
      return Some(Interrupted), r;
    }
    r := r.(executed := b.results, ordered := merged);
    RecoveredStay(messages, index, recovered, r.executed, r.ordered);
    var s;
    s, story := FinishResumed(loop, assistant, kept, merged, b, stop, turns);
    r := r.(story := story);
    RecordIsAdmitted(loop, r.effects, story);
    if s == Finished {
      ClosedObeyed(loop);
      LaterMessages(loop, r.executed, kept + r.ordered, [TurnReport(assistant, r.ordered)], story, turns);
    }
    status := Some(s);
  }

  lemma BatchIsAdmitted(loop: AgentLoop, states: seq<CallState>)
    requires loop.agent.Valid() && Bag(loop.agent.effects) == StartsOf(states)
    requires forall i | 0 <= i < |states| :: CallOk(loop.cfg, states[i])
    ensures ToolsAdmitted(states, loop.agent.outset)
  {
    assert forall k | k in StartsOf(states) :: k in Bag(loop.agent.effects) && k in loop.agent.effects;
    CallsAdmitted(loop.agent, loop.cfg, states);
  }

  lemma LaterMessages(loop: AgentLoop, messages: seq<Message>, context: seq<Message>, reports: seq<TurnReport>,
                      story: seq<StoryStep>, turns: seq<TurnScript>)
    requires StoryDone(loop, messages, context, reports, story, turns, false) && messages <= loop.newMessages
    ensures loop.newMessages[|messages|..] == Told(story)
    ensures loop.newMessages == messages ==> story == []
  {
  }

  // ------------------------------------------------------------------ a provider outside its protocol

  lemma TwoStarts(event: StreamEvent)
    requires event.Start?
    ensures Starts([event, event]) == 2
  {
    assert [event, event][..1] == [event] && [event][..0] == [];
    assert Starts([event]) == Starts([event][..0]) + 1;
  }

  /**
    A provider that announces its response twice, in a run that nobody disturbs: the first placeholder
    stays in the context, which was empty.
   */
  method SecondStartStays(cfg: Config, answer: AssistantMessage) returns (loop: AgentLoop)
    ensures |loop.context| == 1
  {
    var idle := Queue([], All);
    var agent := new Agent([], Scope(Active, false, false), idle, idle, []);
    hide Agent.Valid, Committed, StartedCalls, TurnReports, Starts, StreamScript.Yields;
    assert StageOf(agent.trace) == Unstarted;
    agent.Emit(AgentStart);
    agent.Emit(TurnStart);
    hide StageOf, Next;
    loop := new AgentLoop(agent, cfg, true, [], false);
    TwoStarts(Start(answer));
    var r, _ := loop.StreamAssistantResponse(StreamScript([Start(answer), Start(answer)], answer, false));
  }
}
