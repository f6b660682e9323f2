/**
  The stateful wrapper around a run: the transcript it reduces from loop events and the two message
  queues (packages/agent/src/agent.ts).
 */
module Agents {
  import opened Wrappers
  import opened Transcript
  import opened RunScopes

  datatype QueueMode = All | OneAtATime

  function Flatten(groups: seq<seq<Message>>): seq<Message> {
    if groups == [] then [] else Flatten(groups[..|groups| - 1]) + groups[|groups| - 1]
  }

  lemma {:induction false} FlattenFirst(groups: seq<seq<Message>>)
    requires groups != []
    ensures Flatten(groups) == groups[0] + Flatten(groups[1..])
  {
    var n := |groups| - 1;
    if n == 0 {
      assert groups[..0] == [];
    } else {
      FlattenFirst(groups[..n]);
      assert groups[..n][1..] == groups[1..][..n - 1] && groups[1..][n - 1] == groups[n];
      Regroup(groups[0], Flatten(groups[1..][..n - 1]), groups[n]);
    }
  }

  /** Groups are queued and drained whole; draining neither loses, repeats nor reorders a message. */
  datatype Queue = Queue(groups: seq<seq<Message>>, mode: QueueMode) {
    function Contents(): seq<Message> {
      Flatten(groups)
    }

    function Enqueued(group: seq<Message>): (q: Queue)
      ensures q.Contents() == Contents() + group
    {
      if group == [] then this else
        assert (groups + [group])[..|groups|] == groups;
        this.(groups := groups + [group])
    }

    /** What a poll returns. */
    function Front(): seq<Message> {
      if mode == All then Flatten(groups) else if groups == [] then [] else groups[0]
    }

    function Drained(): (q: Queue)
      ensures Front() + q.Contents() == Contents()
    {
      if mode == All then this.(groups := [])
      else if groups == [] then this
      else
        FlattenFirst(groups);
        this.(groups := groups[1..])
    }
  }

  class PendingMessageQueue {
    var groups: seq<seq<Message>>
    var mode: QueueMode

    ghost function View(): Queue
      reads this
    {
      Queue(groups, mode)
    }

    constructor (mode: QueueMode)
      ensures View() == Queue([], mode)
    {
      groups := [];
      this.mode := mode;
    }

    method Enqueue(group: seq<Message>)
      modifies this
      ensures View() == old(View()).Enqueued(group)
      ensures Flatten(groups) == old(Flatten(groups)) + group
    {
      if |group| > 0 {
        groups := groups + [group];
      }
      assert View() == old(View()).Enqueued(group);
    }

    method Drain() returns (drained: seq<Message>)
      modifies this
      ensures View() == old(View()).Drained() && drained == old(View()).Front()
      ensures drained + Flatten(groups) == old(Flatten(groups))
    {
      if mode == All {
        drained := Flatten(groups);
        groups := [];
      } else if groups == [] {
        drained := [];
      } else {
        drained := groups[0];
        groups := groups[1..];
      }
      assert View() == old(View()).Drained();
    }

    method Clear()
      modifies this
      ensures View() == old(View()).(groups := [])
    {
      groups := [];
    }
  }

  /** What other code may do to a run while the loop awaits. */
  datatype HostOp = Cancel | Steer(group: seq<Message>) | FollowUp(group: seq<Message>)

  /** Everything other code does during these awaits. */
  ghost function Ops(entries: seq<seq<HostOp>>): seq<HostOp> {
    if entries == [] then [] else Ops(entries[..|entries| - 1]) + entries[|entries| - 1]
  }

  datatype Channel = Steering | FollowUps

  /** The messages an operation queues in a channel. */
  function Group(op: HostOp, channel: Channel): seq<Message> {
    match op
    case Cancel => []
    case Steer(group) => if channel == Steering then group else []
    case FollowUp(group) => if channel == FollowUps then group else []
  }

  /** The messages these operations queue in a channel. */
  ghost function QueuedBy(ops: seq<HostOp>, channel: Channel): seq<Message> {
    if ops == [] then [] else QueuedBy(ops[..|ops| - 1], channel) + Group(ops[|ops| - 1], channel)
  }

  /** The groups these operations queue behind those of a queue. */
  ghost function QueueAfter(q: Queue, ops: seq<HostOp>, channel: Channel): Queue {
    if ops == [] then q else QueueAfter(q, ops[..|ops| - 1], channel).Enqueued(Group(ops[|ops| - 1], channel))
  }

  /** Groups stay whole: each is one that was there, or one that was queued. */
  lemma {:induction false} QueueAfterHolds(q: Queue, ops: seq<HostOp>, channel: Channel)
    ensures var r := QueueAfter(q, ops, channel);
      && r.Contents() == q.Contents() + QueuedBy(ops, channel) && r.mode == q.mode
      && forall g | g in r.groups :: g in q.groups || exists op | op in ops :: Group(op, channel) == g
  {
    hide Queue.Contents, Group;
    if ops != [] {
      var n := |ops| - 1;
      QueueAfterHolds(q, ops[..n], channel);
      Regroup(q.Contents(), QueuedBy(ops[..n], channel), Group(ops[n], channel));
    } else {
      assert q.Contents() + [] == q.Contents();
    }
  }

  /** What these operations make of a scope. */
  ghost function ScopeAfter(scope: Scope, ops: seq<HostOp>): Scope {
    if Cancel in ops then scope.Apply(RequestCancel) else scope
  }

  lemma {:induction false} QueuedJoin(a: seq<HostOp>, b: seq<HostOp>, channel: Channel)
    ensures QueuedBy(a + b, channel) == QueuedBy(a, channel) + QueuedBy(b, channel)
  {
    hide Group;
    if b == [] {
      assert a + b == a;
    } else {
      var n := |b| - 1;
      QueuedJoin(a, b[..n], channel);
      assert (a + b)[..|a + b| - 1] == a + b[..n] && (a + b)[|a + b| - 1] == b[n];
      Regroup(QueuedBy(a, channel), QueuedBy(b[..n], channel), Group(b[n], channel));
    }
  }

  /** A group that was found waiting, or that other code has queued since. */
  ghost predicate Known(found: Queue, ops: seq<HostOp>, channel: Channel, group: seq<Message>) {
    group in found.groups || exists op | op in ops :: Group(op, channel) == group
  }

  /**
    What was found and what was queued since has either been drained or waits, in order, and what
    waits is made of whole groups.
   */
  ghost predicate Accounted(found: Queue, ops: seq<HostOp>, channel: Channel, drained: seq<Message>, waiting: Queue) {
    && found.Contents() + QueuedBy(ops, channel) == drained + waiting.Contents()
    && waiting.mode == found.mode
    && forall g | g in waiting.groups :: Known(found, ops, channel, g)
  }

  /** What other code queues waits behind what waited already. */
  lemma AccountedAfter(found: Queue, ops: seq<HostOp>, channel: Channel, drained: seq<Message>, waiting: Queue,
                       more: seq<HostOp>)
    requires Accounted(found, ops, channel, drained, waiting)
    ensures Accounted(found, ops + more, channel, drained, QueueAfter(waiting, more, channel))
  {
    hide Queue.Contents, QueuedBy, QueueAfter, Group;
    QueueAfterHolds(waiting, more, channel);
    QueuedJoin(ops, more, channel);
    Regroup(found.Contents(), QueuedBy(ops, channel), QueuedBy(more, channel));
    Regroup(drained, waiting.Contents(), QueuedBy(more, channel));
  }

  /** A poll drains the front; in one-at-a-time mode that is nothing or one whole group. */
  lemma AccountedDrained(found: Queue, ops: seq<HostOp>, channel: Channel, drained: seq<Message>, waiting: Queue)
    requires Accounted(found, ops, channel, drained, waiting)
    ensures Accounted(found, ops, channel, drained + waiting.Front(), waiting.Drained())
    ensures IsOneGroup(found, ops, channel, waiting.Front())
  {
    hide Queue.Contents, QueuedBy, Group, Known;
    Regroup(drained, waiting.Front(), waiting.Drained().Contents());
  }

  /** In one-at-a-time mode a poll returns nothing or one whole group. */
  ghost predicate IsOneGroup(found: Queue, ops: seq<HostOp>, channel: Channel, drained: seq<Message>) {
    found.mode == OneAtATime && drained != [] ==> Known(found, ops, channel, drained)
  }

  lemma {:induction false} OpsOfPrefix(tape: seq<seq<HostOp>>, k: nat)
    requires k <= |tape|
    ensures forall op | op in Ops(tape[..k]) :: op in Ops(tape)
    decreases |tape|
  {
    if k < |tape| {
      OpsOfPrefix(tape[..|tape| - 1], k);
      assert tape[..|tape| - 1][..k] == tape[..k];
    } else {
      assert tape[..k] == tape;
    }
  }

  /** What a run finds: its scope, what is queued, and what other code is going to do. */
  datatype Outset = Outset(scope: Scope, steering: Queue, followUps: Queue, tape: seq<seq<HostOp>>) {
    ghost predicate OneGroup(channel: Channel, drained: seq<Message>) {
      IsOneGroup(if channel == Steering then steering else followUps, Ops(tape), channel, drained)
    }
  }

  /**
    The agent a run belongs to. Whatever other code does while the loop awaits comes from `tape`:
    every `await` runs its next entry, so a statement about all tapes is one about all interleavings.
   */
  class Agent {
    var messages: seq<Message>
    var streamingMessage: Option<Message>
    var pendingToolCalls: set<string>
    var errorMessage: Option<string>
    var scope: Scope
    var steering: Queue
    var followUps: Queue
    var tape: seq<seq<HostOp>>

    /** What the run found when it began, and how many entries of its tape have been run since. */
    ghost const outset: Outset
    var awaited: nat
    /** The events of the current run. */
    ghost var trace: seq<Event>
    /** Everything ever drained, per queue. */
    ghost var drainedSteering: seq<Message>
    ghost var drainedFollowUps: seq<Message>
    /** How many entries of the tape had been run at the start of every provider request and tool execution. */
    ghost var effects: seq<nat>

    /** What other code has done during the first `k` awaits. */
    ghost function HeardBy(k: nat): seq<HostOp>
      requires k <= |outset.tape|
    {
      Ops(outset.tape[..k])
    }

    /** One more await, one more round of operations. */
    lemma HeardNext(k: nat)
      requires k < |outset.tape|
      ensures HeardBy(k + 1) == HeardBy(k) + outset.tape[k]
      ensures ScopeAfter(outset.scope, HeardBy(k + 1)) ==
          ScopeAfter(ScopeAfter(outset.scope, HeardBy(k)), outset.tape[k])
      ensures ScopeAfter(outset.scope, HeardBy(k)).OnlyCancels(ScopeAfter(outset.scope, HeardBy(k + 1)))
    {
      assert outset.tape[..k + 1][..k] == outset.tape[..k];
    }

    /**
      The scope is what other code has made of it, and the queues hold exactly what was found or has
      been queued, and is not drained yet.
     */
    ghost predicate Conserved()
      reads this`awaited, this`tape, this`scope
      reads this`steering, this`followUps, this`drainedSteering, this`drainedFollowUps
    {
      && awaited <= |outset.tape| && tape == outset.tape[awaited..]
      && scope == ScopeAfter(outset.scope, HeardBy(awaited))
      && Accounted(outset.steering, HeardBy(awaited), Steering, drainedSteering, steering)
      && Accounted(outset.followUps, HeardBy(awaited), FollowUps, drainedFollowUps, followUps)
    }

    /** A placeholder is shown exactly while a message is open. */
    ghost predicate Placeholder()
      reads this`trace, this`streamingMessage
    {
      var stage := StageOf(trace);
      stage != Broken ==> (streamingMessage.Some? <==> stage.InMessage? || stage == InClosingMessage)
    }

    /** Every provider request and tool execution began while the run was neither cancelled nor inactive. */
    ghost predicate EffectsAdmitted()
      reads this`effects, this`awaited
    {
      forall k | k in effects :: k <= awaited <= |outset.tape| && ScopeAfter(outset.scope, HeardBy(k)).Admits()
    }

    ghost predicate Valid()
      reads this`awaited, this`tape, this`scope, this`trace, this`streamingMessage, this`effects
      reads this`steering, this`followUps, this`drainedSteering, this`drainedFollowUps
    {
      Conserved() && Placeholder() && EffectsAdmitted()
    }

    /** Time passes within a turn. */
    twostate predicate Advances()
      reads this
    {
      Passes() && TurnReports(trace) == old(TurnReports(trace))
    }

    /** Time passes: cancellation is never taken back, and events and effects are only added. */
    twostate predicate Passes()
      reads this
    {
      && old(scope).OnlyCancels(scope) && old(awaited) <= awaited
      && old(effects) <= effects && old(trace) <= trace
    }

    /** What other code does during the next await. */
    ghost function Upcoming(): seq<HostOp>
      reads this
    {
      if tape == [] then [] else tape[0]
    }

    /** Other code has run once, as its tape says. */
    twostate predicate Resumed()
      reads this
    {
      && scope == ScopeAfter(old(scope), old(Upcoming())) && tape == (if old(tape) == [] then [] else old(tape)[1..])
      && awaited == old(awaited) + if old(tape) == [] then 0 else 1
    }

    /** What every step of a run keeps that drains nothing. */
    twostate predicate Onward()
      reads this
    {
      && Valid() && Advances()
      && drainedSteering == old(drainedSteering) && drainedFollowUps == old(drainedFollowUps)
    }

    /** No message was committed and no call started. */
    twostate predicate Quiet()
      reads this
    {
      && Committed(trace) == old(Committed(trace)) && messages == old(messages)
      && StartedCalls(trace) == old(StartedCalls(trace))
    }

    /** Exactly these messages were committed, in the trace and in the transcript. */
    twostate predicate Commits(added: seq<Message>)
      reads this
    {
      Committed(trace) == old(Committed(trace)) + added && messages == old(messages) + added
    }

    constructor (messages: seq<Message>, scope: Scope, steering: Queue, followUps: Queue, tape: seq<seq<HostOp>>)
      ensures Valid() && this.messages == messages && this.scope == scope && this.tape == tape
      ensures this.steering == steering && this.followUps == followUps && awaited == 0
      ensures outset == Outset(scope, steering, followUps, tape)
      ensures trace == [] && effects == [] && drainedSteering == [] && drainedFollowUps == []
    {
      this.messages, this.scope, this.steering, this.followUps, this.tape := messages, scope, steering, followUps, tape;
      streamingMessage, pendingToolCalls, errorMessage := None, {}, None;
      outset, awaited := Outset(scope, steering, followUps, tape), 0;
      trace, effects, drainedSteering, drainedFollowUps := [], [], [], [];
    }

    method HostDo(op: HostOp)
      modifies this`scope, this`steering, this`followUps
      ensures scope == if op.Cancel? then old(scope).Apply(RequestCancel) else old(scope)
      ensures steering == old(steering).Enqueued(Group(op, Steering))
      ensures followUps == old(followUps).Enqueued(Group(op, FollowUps))
    {
      hide Flatten, Queue.Contents;
      match op {
        case Cancel => scope := scope.Apply(RequestCancel);
        case Steer(group) => steering := steering.Enqueued(group);
        case FollowUp(group) => followUps := followUps.Enqueued(group);
      }
    }

    /** Other code does these things one after another. */
    method RunEntry(ops: seq<HostOp>)
      modifies this`scope, this`steering, this`followUps
      ensures scope == ScopeAfter(old(scope), ops)
      ensures steering == QueueAfter(old(steering), ops, Steering)
      ensures followUps == QueueAfter(old(followUps), ops, FollowUps)
    {
      hide Queue.Enqueued;
      for i := 0 to |ops|
        invariant scope == ScopeAfter(old(scope), ops[..i])
        invariant steering == QueueAfter(old(steering), ops[..i], Steering)
        invariant followUps == QueueAfter(old(followUps), ops[..i], FollowUps)
      {
        HostDo(ops[i]);
        assert ops[..i + 1][..i] == ops[..i];
      }
      assert ops[..|ops|] == ops;
    }

    /** Run the next entry of the tape. */
    method NextRound()
      requires Conserved() && tape != []
      modifies this`tape, this`scope, this`steering, this`followUps, this`awaited
      ensures Conserved() && awaited == old(awaited) + 1 && awaited <= |outset.tape|
      ensures scope == ScopeAfter(old(scope), old(tape)[0]) && tape == old(tape)[1..]
      ensures old(scope).OnlyCancels(scope)
    {
      hide ScopeAfter, Accounted, QueueAfter, Ops, Scope.OnlyCancels, HeardBy;
      ghost var ops, heard := tape[0], HeardBy(awaited);
      HeardNext(awaited);
      AccountedAfter(outset.steering, heard, Steering, drainedSteering, steering, ops);
      AccountedAfter(outset.followUps, heard, FollowUps, drainedFollowUps, followUps, ops);
      RunEntry(tape[0]);
      tape, awaited := tape[1..], awaited + 1;
    }

    /** Suspend the loop: other code runs until it is resumed. */
    method Await()
      requires Valid()
      modifies this`tape, this`scope, this`steering, this`followUps, this`awaited
      ensures Onward() && Resumed()
    {
      hide StageOf, HeardBy;
      assert tape == outset.tape[awaited..];
      if tape != [] {
        hide Conserved;
        NextRound();
      }
    }

    /** Reduce internal state for one loop event. */
    method ProcessEvents(event: Event)
      modifies this`messages, this`streamingMessage, this`pendingToolCalls, this`errorMessage, this`trace
      ensures trace == old(trace) + [event]
      ensures messages == if event.MessageEnd? then old(messages) + [event.message] else old(messages)
      ensures old(Placeholder()) ==> Placeholder()
      ensures pendingToolCalls ==
        if event.ToolStart? then old(pendingToolCalls) + {event.toolCallId}
        else if event.ToolEnd? then old(pendingToolCalls) - {event.toolCallId}
        else old(pendingToolCalls)
      ensures errorMessage ==
        if event.TurnEnd? && event.message.Assistant? && event.message.errorMessage.Some?
          && event.message.errorMessage.value != ""
        then event.message.errorMessage else old(errorMessage)
    {
      Extend(trace, event);
      hide StageOf, Committed, StartedCalls, TurnReports;
      match event {
        case MessageStart(message) => streamingMessage := Some(message);
        case MessageUpdate(message) => streamingMessage := Some(message);
        case MessageEnd(message) =>
          streamingMessage := None;
          messages := messages + [message];
        case ToolStart(id) => pendingToolCalls := pendingToolCalls + {id};
        case ToolEnd(id) => pendingToolCalls := pendingToolCalls - {id};
        case TurnEnd(message, _) =>
          if message.Assistant? && message.errorMessage.Some? && message.errorMessage.value != "" {
            errorMessage := message.errorMessage;
          }
        case AgentEnd(_) => streamingMessage := None;
        case _ =>
      }
      trace := trace + [event];
    }

    /** `await emit(event)`: reduce the event, then await its listeners. */
    method Emit(event: Event)
      requires Valid()
      modifies this
      ensures Valid() && Passes() && Resumed() && effects == old(effects) && (!event.TurnEnd? ==> Onward())
      ensures drainedSteering == old(drainedSteering) && drainedFollowUps == old(drainedFollowUps)
      ensures TurnReports(trace) ==
        if event.TurnEnd? then old(TurnReports(trace)) + [TurnReport(event.message, event.toolResults)]
        else old(TurnReports(trace))
      ensures trace == old(trace) + [event] && StageOf(trace) == Next(old(StageOf(trace)), event)
      ensures Committed(trace) == if event.MessageEnd? then old(Committed(trace)) + [event.message]
          else old(Committed(trace))
      ensures StartedCalls(trace) ==
        if event.ToolStart? then old(StartedCalls(trace)) + [event.toolCallId] else old(StartedCalls(trace))
      ensures messages == if event.MessageEnd? then old(messages) + [event.message] else old(messages)
    {
      Extend(trace, event);
      hide StageOf, Committed, StartedCalls, TurnReports, Placeholder, Accounted, HeardBy, ScopeAfter;
      ProcessEvents(event);
      Await();
    }

    /** The synchronous linearization point before an effect starts. */
    predicate CanAdmit()
      reads this
    {
      scope.Admits()
    }

    method StartEffect()
      requires Valid() && CanAdmit()
      modifies this`effects
      ensures Onward() && effects == old(effects) + [awaited]
    {
      hide StageOf, Queue.Contents, QueuedBy, Ops;
      effects := effects + [awaited];
    }

    method EmitMessage(m: Message)
      requires Valid()
      modifies this
      ensures Onward() && Commits([m]) && effects == old(effects)
      ensures StartedCalls(trace) == old(StartedCalls(trace))
      ensures old(StageOf(trace)).InTurn? ==> StageOf(trace) == old(StageOf(trace))
      ensures old(StageOf(trace)) == BetweenTurns ==> StageOf(trace) == Closing
    {
      hide Valid, StageOf, Committed, StartedCalls, TurnReports;
      Emit(MessageStart(m));
      Emit(MessageEnd(m));
    }

    /** `getSteeringMessages`. */
    method DrainSteering() returns (drained: seq<Message>)
      requires Valid()
      modifies this`steering, this`drainedSteering
      ensures Valid() && drained == old(steering).Front() && steering == old(steering).Drained()
      ensures drainedSteering == old(drainedSteering) + drained
      ensures outset.OneGroup(Steering, drained)
    {
      OpsOfPrefix(outset.tape, awaited);
      hide Flatten, StageOf, Accounted, Ops;
      AccountedDrained(outset.steering, HeardBy(awaited), Steering, drainedSteering, steering);
      drained := steering.Front();
      steering, drainedSteering := steering.Drained(), drainedSteering + drained;
    }

    /** `getFollowUpMessages`. */
    method DrainFollowUps() returns (drained: seq<Message>)
      requires Valid()
      modifies this`followUps, this`drainedFollowUps
      ensures Valid() && drained == old(followUps).Front() && followUps == old(followUps).Drained()
      ensures drainedFollowUps == old(drainedFollowUps) + drained
      ensures outset.OneGroup(FollowUps, drained)
    {
      OpsOfPrefix(outset.tape, awaited);
      hide Flatten, StageOf, Accounted, Ops;
      AccountedDrained(outset.followUps, HeardBy(awaited), FollowUps, drainedFollowUps, followUps);
      drained := followUps.Front();
      followUps, drainedFollowUps := followUps.Drained(), drainedFollowUps + drained;
    }

    /** `state.messages = ...` */
    method SetMessages(messages: seq<Message>)
      modifies this`messages
      ensures this.messages == messages
    {
      this.messages := messages;
    }
  }
}
