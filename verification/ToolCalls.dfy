/**
  One tool call as it moves through preparation, admission, the scheduler, dispatch, execution,
  the after-hook and persistence (packages/agent/src/agent-loop.ts). Between two `await`s the code
  is atomic, so a call is a machine that takes one reply of its environment at a time.
 */
module ToolCalls {
  import opened Wrappers
  import opened Transcript

  datatype ExecutionOutcome = NotStarted | Confirmed | Unknown

  datatype Output = Output(text: string, terminate: bool)

  /** The outcome of a call once nothing but publication is left to do. */
  datatype Finalized = Finalized(call: ToolCall, output: Output, isError: bool, outcome: ExecutionOutcome)

  datatype Tool = Tool(name: string, orchestrates: bool, hasResource: bool, sequential: bool)

  datatype Config = Config(hasAdmission: bool, hasScheduler: bool)

  /**
    What the last synchronous check before an effect sees: the abort signal and the effect gate, `at` a
    certain number of awaits since the run began.
   */
  datatype Gate = Gate(aborted: bool, admits: bool, at: nat)

  const SHUT: Gate := Gate(true, false, 0)

  predicate Open(gate: Gate) {
    !gate.aborted && gate.admits
  }

  function ErrorOutput(text: string): Output {
    Output(text, false)
  }

  // ------------------------------------------------------------------ preparation

  datatype BeforeHook = Pass | Block(reason: string, terminate: bool) | Throw(text: string)

  /** What the environment contributes to preparing one call. */
  datatype Preparation = Preparation(
    binding: Option<Tool>, argumentsValid: bool, hook: Option<BeforeHook>, stillValid: bool)

  datatype Prepared = Immediate(output: Output) | Ready(tool: Tool)

  /** `aborted` is the signal's flag once the before-hook, if any, has been awaited. */
  function Prepare(call: ToolCall, p: Preparation, aborted: bool): Prepared {
    if p.binding.None? then Immediate(ErrorOutput("Tool " + call.name + " not found"))
    else if !p.argumentsValid then Immediate(ErrorOutput("Invalid arguments"))
    else if p.hook.None? then
      if aborted then Immediate(ErrorOutput("Operation aborted")) else Ready(p.binding.value)
    else match p.hook.value
      case Throw(text) => Immediate(ErrorOutput(text))
      case Pass =>
        if aborted then Immediate(ErrorOutput("Operation aborted"))
        else if !p.stillValid then Immediate(ErrorOutput("Invalid arguments"))
        else Ready(p.binding.value)
      case Block(reason, terminate) =>
        if aborted then Immediate(ErrorOutput("Operation aborted"))
        else Immediate(Output(if reason == "" then "Tool execution was blocked" else reason, terminate))
  }

  function ImmediateResult(call: ToolCall, output: Output): Finalized {
    Finalized(call, output, true, NotStarted)
  }

  /** A call is prepared exactly when its tool exists, its arguments hold and nobody blocked or aborted it. */
  lemma ReadyIff(call: ToolCall, p: Preparation, aborted: bool)
    ensures Prepare(call, p, aborted).Ready? <==>
      && p.binding.Some? && p.argumentsValid && !aborted
      && (p.hook.Some? ==> p.hook.value == Pass && p.stillValid)
  {
  }

  // ------------------------------------------------------------------ the call machine

  datatype Phase =
    | AwaitAdmission
    | AwaitLease
    | AwaitDispatch
    | AwaitExecute
    | AwaitUpdates(executed: Finalized)
    | AwaitAfterHook(executed: Finalized)
    | AwaitPersist(finalized: Finalized)
    | AwaitEnd(finalized: Finalized)
    | Done(finalized: Finalized)
    | Rejected(reported: bool)

  /**
    `lease` is the lease the call was granted, `leases` and `releases` count grants received and
    `release` calls made, `starts` counts calls of `tool.execute`, and `startedUnder` is what the
    gate showed at that moment.
   */
  datatype CallState = CallState(
    call: ToolCall, tool: Tool, phase: Phase, lease: Option<nat>,
    leases: nat, releases: nat, starts: nat, startedUnder: Gate)
  {
    predicate Finished() {
      phase.Done? || phase.Rejected?
    }
  }

  datatype Reply =
    | Resolve
    | Reject
    | Deny(reason: string)
    | Grant(lease: nat)
    | NoGrant
    | Partial
    | Return(output: Output)
    | Fail(output: Output, outcome: ExecutionOutcome)
    | Override(output: Output, isError: bool)

  function WaitsFor(s: CallState, cfg: Config): CallState {
    s.(phase := if cfg.hasAdmission then AwaitAdmission else AwaitLease)
  }

  function Refused(s: CallState, text: string): CallState {
    s.(phase := AwaitAfterHook(Finalized(s.call, ErrorOutput(text), true, NotStarted)))
  }

  function Release(s: CallState): CallState {
    if s.lease.Some? then s.(releases := s.releases + 1) else s
  }

  function Begin(cfg: Config, call: ToolCall, tool: Tool): CallState {
    var s := CallState(call, tool, AwaitLease, None, 0, 0, 0, SHUT);
    if tool.orchestrates && tool.hasResource then
      Refused(s, "Orchestrators must leave execution resources to their nested tools")
    else WaitsFor(s, cfg)
  }

  predicate UsesScheduler(cfg: Config, tool: Tool) {
    cfg.hasScheduler && !tool.orchestrates
  }

  /** The last synchronous check, made after dispatch intent is persisted. */
  function PassGate(cfg: Config, gate: Gate, s: CallState): CallState {
    if Open(gate) then s.(phase := AwaitExecute, starts := s.starts + 1, startedUnder := gate)
    else Refused(Release(s), "Operation aborted")
  }

  /** Dispatch intent is persisted only while the signal has not fired. */
  function Dispatch(cfg: Config, gate: Gate, s: CallState): CallState {
    if gate.aborted then PassGate(cfg, gate, s) else s.(phase := AwaitDispatch)
  }

  /** One reply of the environment; replies that do not fit the phase are ignored. */
  function Step(cfg: Config, gate: Gate, s: CallState, reply: Reply): CallState {
    match s.phase
    case AwaitAdmission => (
      match reply
      case Resolve => s.(phase := AwaitLease)
      case Deny(reason) => Refused(s, reason)
      case Reject => s.(phase := Rejected(false))
      case _ => s)
    case AwaitLease => (
      if !UsesScheduler(cfg, s.tool) then
        if reply == Resolve then Dispatch(cfg, gate, s) else s
      else match reply
        case Grant(lease) => Dispatch(cfg, gate, s.(lease := Some(lease), leases := s.leases + 1))
        case NoGrant => Refused(s, "Operation aborted")
        case _ => s)
    case AwaitDispatch => (
      match reply
      case Resolve => PassGate(cfg, gate, s)
      case Reject => Release(s).(phase := Rejected(false))
      case _ => s)
    case AwaitExecute => (
      match reply
      case Return(output) => s.(phase := AwaitUpdates(Finalized(s.call, output, false, Confirmed)))
      case Fail(output, outcome) => s.(phase := AwaitUpdates(Finalized(s.call, output, true, outcome)))
      case _ => s)
    case AwaitUpdates(executed) => (
      match reply
      case Resolve => Release(s).(phase := AwaitAfterHook(executed))
      case Reject => Release(s).(phase := Rejected(false))
      case _ => s)
    case AwaitAfterHook(executed) => (
      match reply
      case Resolve => s.(phase := AwaitPersist(executed))
      case Override(output, isError) =>
        s.(phase := AwaitPersist(executed.(output := output, isError := isError)))
      case _ => s)
    case AwaitPersist(finalized) => (
      match reply
      case Resolve => s.(phase := AwaitEnd(finalized))
      case Reject => s.(phase := Rejected(false))
      case _ => s)
    case AwaitEnd(finalized) => (
      match reply
      case Resolve => s.(phase := Done(finalized))
      case Reject => s.(phase := Rejected(true))
      case _ => s)
    case _ => s
  }

  /** The event a reply makes the call emit, if any. */
  function Emitted(s: CallState, reply: Reply): Option<Event> {
    if s.phase.AwaitExecute? && reply == Partial then Some(ToolUpdate(s.call.id))
    else if s.phase.AwaitPersist? && reply == Resolve then Some(ToolEnd(s.call.id))
    else None
  }

  /** The call's `tool_execution_end` has been emitted. */
  predicate Reported(s: CallState) {
    s.phase.AwaitEnd? || s.phase.Done? || (s.phase.Rejected? && s.phase.reported)
  }

  /** A call that preparation settled has nothing left to do but to be persisted and reported. */
  function SettledCall(call: ToolCall, output: Output): CallState {
    CallState(call, Tool(call.name, false, false, false), AwaitPersist(ImmediateResult(call, output)),
              None, 0, 0, 0, SHUT)
  }

  /** A call whose preparation is over. */
  function PreparedCall(cfg: Config, call: ToolCall, p: Preparation, aborted: bool): CallState {
    match Prepare(call, p, aborted)
    case Immediate(output) => SettledCall(call, output)
    case Ready(tool) => Begin(cfg, call, tool)
  }

  // ------------------------------------------------------------------ what every reachable call satisfies

  predicate HoldsLease(s: CallState) {
    s.lease.Some? && (s.phase.AwaitDispatch? || s.phase.AwaitExecute? || s.phase.AwaitUpdates?)
  }

  function ReportOf(s: CallState): Option<Finalized> {
    match s.phase
    case AwaitUpdates(f) => Some(f)
    case AwaitAfterHook(f) => Some(f)
    case AwaitPersist(f) => Some(f)
    case AwaitEnd(f) => Some(f)
    case Done(f) => Some(f)
    case _ => None
  }

  ghost predicate CallOk(cfg: Config, s: CallState) {
    && s.starts <= 1 && (s.starts == 1 ==> Open(s.startedUnder))
    && s.leases == (if s.lease.Some? then 1 else 0)
    && s.leases == s.releases + (if HoldsLease(s) then 1 else 0)
    && (s.lease.Some? ==> UsesScheduler(cfg, s.tool))
    && (s.phase.AwaitAdmission? || s.phase.AwaitLease? ==> s.lease.None? && s.starts == 0)
    && (s.phase.AwaitDispatch? ==> s.starts == 0 && (UsesScheduler(cfg, s.tool) ==> s.lease.Some?))
    && (s.phase.AwaitExecute? || s.phase.AwaitUpdates? ==> s.starts == 1)
    && (var r := ReportOf(s); r.Some? ==> r.value.call == s.call && (s.starts == 0 ==> r.value.outcome == NotStarted))
    && (s.starts == 1 && UsesScheduler(cfg, s.tool) ==> s.lease.Some?)
  }

  lemma BeginOk(cfg: Config, call: ToolCall, tool: Tool)
    ensures CallOk(cfg, Begin(cfg, call, tool)) && Begin(cfg, call, tool).call == call
    ensures !Reported(Begin(cfg, call, tool)) && !Begin(cfg, call, tool).Finished()
  {
    var s := Begin(cfg, call, tool);
    assert s.starts == 0 && s.leases == 0 && s.releases == 0 && s.lease == None && s.call == call;
    assert s.phase.AwaitAdmission? || s.phase.AwaitLease? || s.phase.AwaitAfterHook?;
    hide Begin;
  }

  /** A call whose gate is closed when it reaches the check starts nothing and frees its lease at once. */
  lemma StepOk(cfg: Config, gate: Gate, s: CallState, reply: Reply)
    requires CallOk(cfg, s)
    ensures var s' := Step(cfg, gate, s, reply);
      && CallOk(cfg, s') && s'.call == s.call
      && s.starts <= s'.starts && (s'.starts > s.starts ==> Open(gate) && s'.startedUnder == gate)
      && (s'.starts == s.starts ==> s'.startedUnder == s.startedUnder)
      && s.leases <= s'.leases && s.releases <= s'.releases
      && (s.Finished() ==> s' == s)
      && (Reported(s) ==> Reported(s'))
      && (var e := Emitted(s, reply);
          if Reported(s') && !Reported(s) then e == Some(ToolEnd(s.call.id))
          else e == None || (e == Some(ToolUpdate(s.call.id)) && !Reported(s)))
  {
  }

  lemma PreparedOk(cfg: Config, call: ToolCall, p: Preparation, aborted: bool)
    ensures var s := PreparedCall(cfg, call, p, aborted);
      && CallOk(cfg, s) && s.call == call && !Reported(s) && !s.Finished() && s.starts == 0
      && (aborted ==> s.phase.AwaitPersist?)
  {
    if Prepare(call, p, aborted).Ready? {
      BeginOk(cfg, call, Prepare(call, p, aborted).tool);
    }
  }

  // ------------------------------------------------------------------ when executions began

  /** When the tool of a call was executed, if it was. */
  ghost function StartOf(s: CallState): multiset<nat> {
    if s.starts == 0 then multiset{} else multiset{s.startedUnder.at}
  }

  /** Moments in any order. */
  ghost function Bag(moments: seq<nat>): multiset<nat> {
    multiset(moments)
  }

  lemma BagAppend(a: seq<nat>, b: seq<nat>)
    ensures Bag(a + b) == Bag(a) + Bag(b)
  {
  }

  lemma BagPush(a: seq<nat>, x: nat)
    ensures Bag(a + [x]) == Bag(a) + multiset{x}
  {
  }

  ghost function StartsOf(states: seq<CallState>): multiset<nat> {
    if states == [] then multiset{} else StartsOf(states[..|states| - 1]) + StartOf(states[|states| - 1])
  }

  lemma StartsExtend(states: seq<CallState>, s: CallState)
    ensures StartsOf(states + [s]) == StartsOf(states) + StartOf(s)
  {
    assert (states + [s])[..|states|] == states;
  }

  lemma {:induction false} StartsUpdate(states: seq<CallState>, i: nat, s: CallState)
    requires i < |states|
    ensures StartsOf(states[i := s]) + StartOf(states[i]) == StartsOf(states) + StartOf(s)
  {
    hide StartOf;
    var n := |states| - 1;
    var front, last := states[..n], states[n];
    assert states == front + [last];
    if i == n {
      assert states[i := s] == front + [s];
      StartsExtend(front, s);
      StartsExtend(front, last);
    } else {
      StartsUpdate(front, i, s);
      assert states[i := s] == front[i := s] + [last];
      StartsExtend(front[i := s], last);
      StartsExtend(front, last);
    }
  }

  /** Where an execution began is among the starts. */
  lemma {:induction false} StartsHold(states: seq<CallState>, i: nat)
    requires i < |states| && states[i].starts > 0
    ensures states[i].startedUnder.at in StartsOf(states)
  {
    var n := |states| - 1;
    if i < n {
      StartsHold(states[..n], i);
    }
  }

  /** A step records when it starts the tool, if it does. */
  lemma StepStarts(cfg: Config, gate: Gate, s: CallState, reply: Reply)
    requires CallOk(cfg, s)
    ensures var s' := Step(cfg, gate, s, reply);
      StartOf(s') == StartOf(s) + if s'.starts > s.starts then multiset{gate.at} else multiset{}
  {
    StepOk(cfg, gate, s, reply);
    hide Step;
  }

  // ------------------------------------------------------------------ whole runs of calls

  function Zip(gates: seq<Gate>, replies: seq<Reply>): seq<(Gate, Reply)>
    requires |gates| == |replies|
  {
    seq(|gates|, i requires 0 <= i < |gates| => (gates[i], replies[i]))
  }

  lemma {:induction false} RunExtend(cfg: Config, s: CallState, steps: seq<(Gate, Reply)>, gate: Gate, reply: Reply)
    ensures Run(cfg, s, steps + [(gate, reply)]) == Step(cfg, gate, Run(cfg, s, steps), reply)
    decreases |steps|
  {
    hide Step;
    if steps == [] {
      assert steps + [(gate, reply)] == [(gate, reply)];
      assert Run(cfg, s, [(gate, reply)]) == Run(cfg, Step(cfg, gate, s, reply), [(gate, reply)][1..]);
    } else {
      RunExtend(cfg, Step(cfg, steps[0].0, s, steps[0].1), steps[1..], gate, reply);
      assert (steps + [(gate, reply)])[1..] == steps[1..] + [(gate, reply)];
    }
  }

  /** A call that is over takes no notice of further replies. */
  lemma {:induction false} RunFinished(cfg: Config, s: CallState, steps: seq<(Gate, Reply)>)
    requires s.Finished()
    ensures Run(cfg, s, steps) == s
    decreases |steps|
  {
    if steps != [] {
      RunFinished(cfg, s, steps[1..]);
    }
  }

  lemma {:induction false} RunAppend(cfg: Config, s: CallState, a: seq<(Gate, Reply)>, b: seq<(Gate, Reply)>)
    ensures Run(cfg, s, a + b) == Run(cfg, Run(cfg, s, a), b)
    decreases |a|
  {
    hide Step;
    if a == [] {
      assert a + b == b;
    } else {
      RunAppend(cfg, Step(cfg, a[0].0, s, a[0].1), a[1..], b);
      assert (a + b)[1..] == a[1..] + b;
    }
  }

  /** The calls of a batch run concurrently: each reply moves the call it belongs to. */
  function Interleaved(cfg: Config, states: seq<CallState>, steps: seq<(nat, Reply)>, gates: seq<Gate>):
      (after: seq<CallState>)
    requires |gates| == |steps|
    ensures |after| == |states|
  {
    if steps == [] then states else
      var n := |steps| - 1;
      var before := Interleaved(cfg, states, steps[..n], gates[..n]);
      var i := steps[n].0;
      if i < |states| then before[i := Step(cfg, gates[n], before[i], steps[n].1)] else before
  }

  /** The replies that concern call number `i`. */
  function Own(i: nat, steps: seq<(nat, Reply)>, gates: seq<Gate>): seq<(Gate, Reply)>
    requires |gates| == |steps|
  {
    if steps == [] then [] else
      var n := |steps| - 1;
      var front := Own(i, steps[..n], gates[..n]);
      if steps[n].0 == i then front + [(gates[n], steps[n].1)] else front
  }

  /** However the replies are interleaved, each call moves as its own replies say and no other way. */
  lemma {:induction false} InterleavedIsOwn(cfg: Config, states: seq<CallState>, steps: seq<(nat, Reply)>,
                                            gates: seq<Gate>, i: nat)
    requires |gates| == |steps| && i < |states|
    ensures Interleaved(cfg, states, steps, gates)[i] == Run(cfg, states[i], Own(i, steps, gates))
  {
    hide Run, Step;
    if steps == [] {
      RunNone(cfg, states[i]);
    } else {
      var n := |steps| - 1;
      InterleavedIsOwn(cfg, states, steps[..n], gates[..n], i);
      if steps[n].0 == i {
        RunExtend(cfg, states[i], Own(i, steps[..n], gates[..n]), gates[n], steps[n].1);
      }
    }
  }

  /** The replies to call number `i`, in order. */
  function RepliesTo(i: nat, steps: seq<(nat, Reply)>): seq<Reply> {
    if steps == [] then [] else
      var n := |steps| - 1;
      var front := RepliesTo(i, steps[..n]);
      if steps[n].0 == i then front + [steps[n].1] else front
  }

  /** The gates its own replies come under. */
  function GatesOf(i: nat, steps: seq<(nat, Reply)>, gates: seq<Gate>): (own: seq<Gate>)
    requires |gates| == |steps|
    ensures |own| == |RepliesTo(i, steps)|
  {
    if steps == [] then [] else
      var n := |steps| - 1;
      var front := GatesOf(i, steps[..n], gates[..n]);
      if steps[n].0 == i then front + [gates[n]] else front
  }

  lemma {:induction false} OwnIsZip(i: nat, steps: seq<(nat, Reply)>, gates: seq<Gate>)
    requires |gates| == |steps|
    ensures Own(i, steps, gates) == Zip(GatesOf(i, steps, gates), RepliesTo(i, steps))
  {
    if steps != [] {
      OwnIsZip(i, steps[..|steps| - 1], gates[..|steps| - 1]);
    }
  }

  lemma RunNone(cfg: Config, s: CallState)
    ensures Run(cfg, s, []) == s
  {
  }

  function Run(cfg: Config, s: CallState, steps: seq<(Gate, Reply)>): CallState
    decreases |steps|
  {
    if steps == [] then s else Run(cfg, Step(cfg, steps[0].0, s, steps[0].1), steps[1..])
  }

  /** The gate stays shut from position `k` on. */
  ghost predicate ShutFrom(steps: seq<(Gate, Reply)>, k: nat) {
    forall i | k <= i < |steps| :: !Open(steps[i].0)
  }

  lemma {:induction false} RunOk(cfg: Config, s: CallState, steps: seq<(Gate, Reply)>)
    requires CallOk(cfg, s)
    ensures CallOk(cfg, Run(cfg, s, steps)) && Run(cfg, s, steps).call == s.call
    decreases |steps|
  {
    if steps != [] {
      StepOk(cfg, steps[0].0, s, steps[0].1);
      RunOk(cfg, Step(cfg, steps[0].0, s, steps[0].1), steps[1..]);
    }
  }

  /** However the call goes on, the tool is not executed once the gate has shut for good. */
  lemma {:induction false} NoStartOnceShut(cfg: Config, s: CallState, steps: seq<(Gate, Reply)>, k: nat)
    requires CallOk(cfg, s) && k <= |steps| && ShutFrom(steps, k)
    ensures Run(cfg, s, steps).starts == Run(cfg, s, steps[..k]).starts
    decreases |steps|
  {
    if steps != [] {
      var s' := Step(cfg, steps[0].0, s, steps[0].1);
      StepOk(cfg, steps[0].0, s, steps[0].1);
      if k == 0 {
        NoStartOnceShut(cfg, s', steps[1..], 0);
        assert steps[1..][..0] == [] && steps[..0] == [];
      } else {
        NoStartOnceShut(cfg, s', steps[1..], k - 1);
        assert steps[..k][1..] == steps[1..][..k - 1];
      }
    }
  }

  lemma BeginStartsNothing(cfg: Config, call: ToolCall, tool: Tool)
    ensures Begin(cfg, call, tool).starts == 0
  {
  }

  /**
    Over every run of one call: the tool is executed at most once and only under an open gate, a
    granted lease is released exactly once whichever way the call ends, and a call that was never
    executed reports `not_started`.
   */
  lemma CallSafety(cfg: Config, call: ToolCall, tool: Tool, steps: seq<(Gate, Reply)>)
    ensures var s := Run(cfg, Begin(cfg, call, tool), steps);
      && s.starts <= 1
      && (s.starts == 1 ==> Open(s.startedUnder))
      && (s.Finished() ==> s.leases == s.releases <= 1)
      && (s.phase.Done? ==> s.phase.finalized.call == call)
      && (s.phase.Done? && s.starts == 0 ==> s.phase.finalized.outcome == NotStarted)
      && (s.phase.Done? && ShutFrom(steps, 0) ==> s.phase.finalized.outcome == NotStarted)
    ensures forall k: nat | k <= |steps| && ShutFrom(steps, k) ::
      Run(cfg, Begin(cfg, call, tool), steps).starts == Run(cfg, Begin(cfg, call, tool), steps[..k]).starts
  {
    hide Step, Begin, Run;
    var b := Begin(cfg, call, tool);
    BeginOk(cfg, call, tool);
    RunOk(cfg, b, steps);
    RunNone(cfg, b);
    assert b.starts == 0 by { BeginStartsNothing(cfg, call, tool); }
    forall k: nat | k <= |steps| && ShutFrom(steps, k)
      ensures Run(cfg, b, steps).starts == Run(cfg, b, steps[..k]).starts
    {
      NoStartOnceShut(cfg, b, steps, k);
    }
    assert steps[..0] == [];
    if ShutFrom(steps, 0) {
      assert Run(cfg, b, steps).starts == Run(cfg, b, steps[..0]).starts;
    }
  }

  // ------------------------------------------------------------------ replies that settle any call

  /** How far a call has come on its way to being over, at least. */
  predicate Reaches(s: CallState, k: nat) {
    match s.phase
    case AwaitAdmission => k == 0
    case AwaitLease => k == 0
    case AwaitDispatch => k <= 1
    case AwaitExecute => k <= 2
    case AwaitUpdates(_) => k <= 3
    case AwaitAfterHook(_) => k <= 4
    case AwaitPersist(_) => k <= 5
    case AwaitEnd(_) => k <= 6
    case Done(_) => true
    case Rejected(_) => false
  }

  lemma ResolveHelps(cfg: Config, gate: Gate, s: CallState, k: nat)
    requires Reaches(s, k)
    ensures var s' := Step(cfg, gate, s, Resolve);
      && Reaches(s', k) && (1 <= k <= 6 && k != 2 ==> Reaches(s', k + 1))
      && (s.phase.AwaitLease? ==> if UsesScheduler(cfg, s.tool) then s' == s else Reaches(s', 1))
      && (s.phase.AwaitAdmission? ==> s'.phase.AwaitLease? && s'.tool == s.tool)
  {
  }

  lemma GrantHelps(cfg: Config, gate: Gate, s: CallState, lease: nat)
    requires Reaches(s, 0)
    ensures var s' := Step(cfg, gate, s, Grant(lease));
      && Reaches(s', 0) && s'.tool == s.tool
      && (s.phase.AwaitLease? && UsesScheduler(cfg, s.tool) ==> Reaches(s', 1))
      && (Reaches(s, 1) ==> Reaches(s', 1))
      && (s.phase.AwaitLease? && !UsesScheduler(cfg, s.tool) ==> s' == s)
  {
  }

  lemma ReturnHelps(cfg: Config, gate: Gate, s: CallState, output: Output)
    requires Reaches(s, 2)
    ensures Reaches(Step(cfg, gate, s, Return(output)), 3)
  {
  }

  /** The replies of a call nobody interferes with: admitted, granted a lease, dispatched, executed, persisted. */
  function UsualReplies(lease: nat, output: Output): seq<Reply> {
    [Resolve, Grant(lease), Resolve, Resolve, Return(output), Resolve, Resolve, Resolve, Resolve]
  }

  /** How far the first `k` of these replies bring any call. */
  predicate UsualProgress(cfg: Config, s: CallState, k: nat) {
    if k == 0 then Reaches(s, 0)
    else if k == 1 then s.phase.AwaitLease? || Reaches(s, 1)
    else if k == 2 then (s.phase.AwaitLease? && !UsesScheduler(cfg, s.tool)) || Reaches(s, 1)
    else Reaches(s, k - 2)
  }

  lemma UsualStep(cfg: Config, gate: Gate, s: CallState, k: nat, lease: nat, output: Output)
    requires k < |UsualReplies(lease, output)| && UsualProgress(cfg, s, k)
    ensures UsualProgress(cfg, Step(cfg, gate, s, UsualReplies(lease, output)[k]), k + 1)
  {
    hide Step;
    if k == 1 {
      GrantHelps(cfg, gate, s, lease);
    } else if k == 4 {
      ReturnHelps(cfg, gate, s, output);
    } else {
      ResolveHelps(cfg, gate, s, if k < 3 then (if Reaches(s, 1) then 1 else 0) else k - 2);
    }
  }

  lemma {:induction false} UsualRun(cfg: Config, s: CallState, gates: seq<Gate>, k: nat, lease: nat, output: Output)
    requires |gates| == |UsualReplies(lease, output)| && k <= |gates| && Reaches(s, 0)
    ensures UsualProgress(cfg, Run(cfg, s, Zip(gates, UsualReplies(lease, output))[..k]), k)
  {
    hide Step, Reaches, Run, UsualReplies, UsualProgress;
    var steps := Zip(gates, UsualReplies(lease, output));
    if k == 0 {
      RunNone(cfg, s);
      assert steps[..0] == [] && UsualProgress(cfg, s, 0) by { UsualStart(cfg, s); }
    } else {
      UsualRun(cfg, s, gates, k - 1, lease, output);
      RunExtend(cfg, s, steps[..k - 1], gates[k - 1], UsualReplies(lease, output)[k - 1]);
      assert steps[..k] == steps[..k - 1] + [(gates[k - 1], UsualReplies(lease, output)[k - 1])];
      UsualStep(cfg, gates[k - 1], Run(cfg, s, steps[..k - 1]), k - 1, lease, output);
    }
  }

  lemma UsualStart(cfg: Config, s: CallState)
    ensures Reaches(s, 0) ==> UsualProgress(cfg, s, 0)
  {
  }

  /** They bring any prepared call to its end, whatever the gate shows and whichever of them it needs. */
  lemma UsualRepliesSettle(cfg: Config, call: ToolCall, p: Preparation, aborted: bool, gates: seq<Gate>,
                           lease: nat, output: Output)
    requires |gates| == |UsualReplies(lease, output)|
    ensures Run(cfg, PreparedCall(cfg, call, p, aborted), Zip(gates, UsualReplies(lease, output))).phase.Done?
  {
    var s, steps := PreparedCall(cfg, call, p, aborted), Zip(gates, UsualReplies(lease, output));
    assert Reaches(s, 0);
    hide Run, PreparedCall, Zip;
    UsualRun(cfg, s, gates, 9, lease, output);
    assert steps[..9] == steps;
  }
}
