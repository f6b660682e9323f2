/**
  The controller that queues UI actions, reduces them in batches and runs their effects, whose handlers
  may dispatch, flush, start or stop again (packages/grok-tui/src/runtime-controller.ts).
 */
module RuntimeControllers {
  import opened Wrappers
  import opened UiActions

  /** What other code does to the controller. */
  datatype Op = Dispatch(action: Action) | Start(dimensions: Dimensions) | Stop | Flush | Microtask

  /** The handler of one effect: what it does to the controller before it returns or throws. */
  datatype Reaction = Reaction(ops: seq<Op>, throws: bool)

  /** Since the last `stop`: where the state was, every action dispatched, every action reduced, every effect run. */
  datatype Ledger = Ledger(origin: UiState, dispatched: seq<Action>, reduced: seq<Action>, ran: seq<Effect>)

  /** What the controller holds; `interrupted` if a handler has thrown out of the last flush. */
  datatype Config = Config(
    state: UiState, actions: seq<Action>, effects: seq<Effect>, scheduled: bool, interrupted: bool, ledger: Ledger)
  {
    function Put(a: Action): Config {
      this.(actions := Coalesce(actions + [a]), ledger := ledger.(dispatched := ledger.dispatched + [a]))
    }

    /** `stop` drops what is pending for the one action that stops the view. */
    function Cleared(): Config {
      this.(actions := [Stopped], effects := [], scheduled := false, ledger := Ledger(state, [Stopped], [], []))
    }

    /** What an operation does in the middle of a flush, where nothing is flushed again. */
    function During(op: Op): Config {
      match op
      case Dispatch(action) => Put(action)
      case Start(dimensions) => Put(Started(dimensions))
      case Stop => Cleared()
      case Flush => this
      case Microtask => this.(scheduled := false)
    }

    function DuringAll(ops: seq<Op>): Config {
      if ops == [] then this else DuringAll(ops[..|ops| - 1]).During(ops[|ops| - 1])
    }

    /** The first effect is handed out. */
    function Took(): Config
      requires effects != []
    {
      this.(effects := effects[1..], ledger := ledger.(ran := ledger.ran + [effects[0]]))
    }

    /** All pending actions are reduced at once; their effects wait until the last of them is. */
    function Reduced(): Config {
      var t := Run(state, actions);
      this.(state := t.state, actions := [], effects := t.effects,
            ledger := ledger.(reduced := ledger.reduced + actions))
    }
  }

  /** Where an operation leaves controller and tape, whether it threw, and the effects it ran. */
  datatype Outcome = Outcome(config: Config, tape: seq<Reaction>, threw: bool, ran: seq<Effect>) {
    function After(earlier: seq<Effect>): Outcome {
      this.(ran := earlier + ran)
    }
  }

  /**
    A flush: effects first, one at a time with all that its handler does, then the actions pending,
    until nothing is pending or a handler throws.
   */
  function Drained(c: Config, tape: seq<Reaction>): Outcome
    decreases |tape|, c.actions != [], |c.effects|
  {
    if c.effects != [] then
      if tape == [] then Drained(c.Took(), []).After([c.effects[0]])
      else
        var c' := c.Took().DuringAll(tape[0].ops);
        if tape[0].throws then Outcome(c'.(interrupted := true), tape[1..], true, [c.effects[0]])
        else Drained(c', tape[1..]).After([c.effects[0]])
    else if c.actions != [] then Drained(c.Reduced(), tape)
    else Outcome(c, tape, false, [])
  }

  /** Where a reaction leaves the effect it belongs to. */
  function Reacted(c: Config, tape: seq<Reaction>): Config
    requires c.effects != []
  {
    if tape == [] then c.Took() else c.Took().DuringAll(tape[0].ops)
  }

  lemma EffectStep(whole: Outcome, c: Config, tape: seq<Reaction>, ran: seq<Effect>)
    requires c.effects != [] && whole == Drained(c, tape).After(ran)
    ensures var c', ran' := Reacted(c, tape), ran + [c.effects[0]];
      if tape != [] && tape[0].throws then whole == Outcome(c'.(interrupted := true), tape[1..], true, ran')
      else whole == Drained(c', if tape == [] then [] else tape[1..]).After(ran')
  {
    hide Config.DuringAll, Config.Took;
    var rest := Drained(Reacted(c, tape), if tape == [] then [] else tape[1..]);
    assert ran + ([c.effects[0]] + rest.ran) == ran + [c.effects[0]] + rest.ran;
  }

  lemma BatchStep(c: Config, tape: seq<Reaction>)
    requires c.effects == [] && c.actions != []
    ensures Drained(c, tape) == Drained(c.Reduced(), tape)
  {
    hide Run;
  }

  lemma DoneStep(c: Config, tape: seq<Reaction>)
    requires c.effects == [] && c.actions == []
    ensures Drained(c, tape) == Outcome(c, tape, false, [])
  {
  }

  function Flushed(c: Config, tape: seq<Reaction>): Outcome {
    Drained(c.(scheduled := false, interrupted := false), tape)
  }

  /** What an operation does outside a flush. */
  function Performed(c: Config, tape: seq<Reaction>, op: Op): Outcome {
    match op
    case Dispatch(action) => Outcome(c.Put(action).(scheduled := true), tape, false, [])
    case Start(dimensions) => Flushed(c.Put(Started(dimensions)), tape)
    case Stop => Flushed(c.Cleared(), tape)
    case Flush => Flushed(c, tape)
    case Microtask => if c.scheduled then Flushed(c, tape) else Outcome(c, tape, false, [])
  }

  /** A whole life of the controller: the operations of its host, which goes on even if one throws. */
  function Life(c: Config, tape: seq<Reaction>, ops: seq<Op>): Outcome
    decreases |ops|
  {
    if ops == [] then Outcome(c, tape, false, []) else
      var first := Performed(c, tape, ops[0]);
      Life(first.config, first.tape, ops[1..]).After(first.ran)
  }

  function Newborn(dimensions: Dimensions): Config {
    var s := InitialState(dimensions);
    Config(s, [], [], false, false, Ledger(s, [], [], []))
  }

  class RuntimeController {
    var currentState: UiState
    var pendingActions: seq<Action>
    var pendingEffects: seq<Effect>
    var drainScheduled: bool
    var draining: bool
    /** The reactions of the effects to come; all tapes are all behaviours of the handlers. */
    var tape: seq<Reaction>
    ghost var ledger: Ledger
    ghost var interrupted: bool

    ghost function View(): Config
      reads this
    {
      Config(currentState, pendingActions, pendingEffects, drainScheduled, interrupted, ledger)
    }

    /** An operation from outside a flush has come to its end. */
    ghost predicate Reached(o: Outcome, threw: bool)
      reads this
    {
      View() == o.config && tape == o.tape && threw == o.threw && !draining
    }

    constructor (dimensions: Dimensions, tape: seq<Reaction>)
      ensures View() == Newborn(dimensions) && !draining && this.tape == tape
    {
      currentState, pendingActions, pendingEffects := InitialState(dimensions), [], [];
      drainScheduled, draining, interrupted, this.tape := false, false, false, tape;
      ledger := Ledger(InitialState(dimensions), [], [], []);
    }

    /** `dispatch`: coalesce the action into the queue and see to it that the queue is drained. */
    method Dispatch(action: Action)
      modifies this`pendingActions, this`drainScheduled, this`ledger
      ensures View() == old(View()).Put(action).(scheduled := old(drainScheduled) || !draining)
    {
      pendingActions := CoalesceUiActions(pendingActions + [action]);
      ledger := ledger.(dispatched := ledger.dispatched + [action]);
      if !drainScheduled && !draining {
        drainScheduled := true;
      }
    }

    /** `stop`: whatever is pending is dropped for the one action that stops the view. */
    method Stop() returns (threw: bool)
      modifies this
      ensures if old(draining) then draining && !threw && tape == old(tape) && View() == old(View()).Cleared()
              else Reached(Performed(old(View()), old(tape), Op.Stop), threw)
      decreases |tape|, 3
    {
      hide Drained;
      pendingActions, pendingEffects, drainScheduled := [Stopped], [], false;
      ledger := Ledger(currentState, [Stopped], [], []);
      threw := Flush();
    }

    method Start(dimensions: Dimensions) returns (threw: bool)
      modifies this
      ensures if old(draining)
              then draining && !threw && tape == old(tape) && View() == old(View()).During(Op.Start(dimensions))
              else Reached(Performed(old(View()), old(tape), Op.Start(dimensions)), threw)
      decreases |tape|, 3
    {
      hide Drained, Coalesce;
      Dispatch(Started(dimensions));
      threw := Flush();
    }

    method Perform(op: Op) returns (threw: bool)
      modifies this
      ensures if old(draining) then draining && !threw && tape == old(tape) && View() == old(View()).During(op)
              else Reached(Performed(old(View()), old(tape), op), threw)
      decreases |tape|, 4
    {
      hide Drained, Coalesce;
      threw := false;
      match op {
        case Dispatch(action) => Dispatch(action);
        case Start(dimensions) => threw := Start(dimensions);
        case Stop => threw := Stop();
        case Flush => threw := Flush();
        case Microtask =>
          if drainScheduled {
            drainScheduled := false;
            threw := Flush();
          }
      }
    }

    /** `flush`: run effects and reduce actions until nothing is pending, unless that is going on already. */
    method Flush() returns (threw: bool)
      modifies this
      ensures if old(draining) then draining && !threw && tape == old(tape) && View() == old(View())
              else Reached(Flushed(old(View()), old(tape)), threw)
      decreases |tape|, 2
    {
      hide Reacted, Config.Reduced;
      threw := false;
      if draining {
        return;
      }
      draining, drainScheduled, interrupted := true, false, false;
      ghost var whole, ran := Drained(View(), tape), [];
      assert whole == whole.After([]);
      hide Drained;
      while pendingActions != [] || pendingEffects != []
        invariant draining && |tape| <= |old(tape)|
        invariant whole == Drained(View(), tape).After(ran)
        decreases |tape|, pendingActions != [], |pendingEffects|
      {
        if pendingEffects != [] {
          ghost var effect := pendingEffects[0];
          EffectStep(whole, View(), tape, ran);
          threw := RunEffect();
          if threw {
            draining, interrupted := false, true;
            return;
          }
          ran := ran + [effect];
        } else {
          BatchStep(View(), tape);
          ReduceBatch();
        }
      }
      DoneStep(View(), tape);
      draining := false;
    }

    /** Take the next effect and run its handler. */
    method RunEffect() returns (threw: bool)
      requires draining && pendingEffects != []
      modifies this
      ensures draining && tape == if old(tape) == [] then [] else old(tape)[1..]
      ensures threw <==> old(tape) != [] && old(tape)[0].throws
      ensures View() == Reacted(old(View()), old(tape))
      ensures old(tape) == [] ==> pendingActions == old(pendingActions) && pendingEffects == old(pendingEffects)[1..]
      decreases |tape|, 0
    {
      hide Coalesce, Run;
      ledger := ledger.(ran := ledger.ran + [pendingEffects[0]]);
      pendingEffects := pendingEffects[1..];
      threw := false;
      if tape != [] {
        var reaction := tape[0];
        tape := tape[1..];
        threw := reaction.throws;
        for i := 0 to |reaction.ops|
          invariant draining && tape == old(tape)[1..]
          invariant View() == old(View()).Took().DuringAll(reaction.ops[..i])
        {
          var _ := Perform(reaction.ops[i]);
          assert reaction.ops[..i + 1][..i] == reaction.ops[..i];
        }
        assert reaction.ops[..|reaction.ops|] == reaction.ops;
      }
    }

    /** Reduce all pending actions at once. */
    method ReduceBatch()
      requires pendingEffects == []
      modifies this`currentState, this`pendingActions, this`pendingEffects, this`ledger
      ensures View() == old(View()).Reduced() && pendingActions == []
    {
      hide Reduce, Run, Coalesce;
      var actions := pendingActions;
      pendingActions := [];
      assert actions[..0] == [];
      assert Run(currentState, []) == Transition(currentState, []) by {
        EmptyRun(currentState);
      }
      for i := 0 to |actions|
        invariant Run(old(currentState), actions[..i]) == Transition(currentState, pendingEffects)
        invariant pendingActions == [] && ledger == old(ledger)
      {
        var transition := Reduce(currentState, actions[i]);
        RunStep(old(currentState), actions, i);
        currentState := transition.state;
        pendingEffects := pendingEffects + transition.effects;
      }
      assert actions[..|actions|] == actions;
      ledger := ledger.(reduced := ledger.reduced + actions);
    }
  }

  lemma EmptyRun(s: UiState)
    ensures Run(s, []) == Transition(s, [])
  {
  }

  lemma RunStep(s: UiState, actions: seq<Action>, i: nat)
    requires i < |actions|
    ensures var front := Run(s, actions[..i]);
      var last := Reduce(front.state, actions[i]);
      Run(s, actions[..i + 1]) == Transition(last.state, front.effects + last.effects)
  {
    assert actions[..i + 1][..i] == actions[..i];
  }

  // ------------------------------------------------------------------ what the ledger means

  /**
    The state is the fold of what was reduced; its effects have run, each once and in order, or are
    pending; and what was reduced or is pending means what was dispatched.
   */
  ghost predicate Accounted(c: Config) {
    var l := c.ledger;
    && Run(l.origin, l.reduced) == Transition(c.state, l.ran + c.effects)
    && MeaningOf(l.origin, l.reduced + c.actions) == MeaningOf(l.origin, l.dispatched)
    && Coalesce(c.actions) == c.actions
  }

  /** Nothing is pending: state and inputs delivered are those of all actions dispatched since the last stop. */
  ghost predicate Caught(c: Config) {
    var l := c.ledger;
    && c.actions == [] && c.effects == []
    && MeaningOf(l.origin, l.dispatched) ==
       Meaning(c.state.running, c.state.size, c.state.inputSequence, Inputs(l.ran))
  }

  /** Whatever is pending will be looked at again: by a scheduled flush, or after the one a handler threw out of. */
  predicate Remembered(c: Config) {
    c.actions != [] || c.effects != [] ==> c.scheduled || c.interrupted
  }

  lemma CoalesceInContext(s: UiState, before: seq<Action>, actions: seq<Action>)
    ensures MeaningOf(s, before + Coalesce(actions)) == MeaningOf(s, before + actions)
  {
    var middle := Run(s, before);
    RunAppend(s, before, actions);
    RunAppend(s, before, Coalesce(actions));
    CoalescingKeepsMeaning(middle.state, actions);
    InputsAppend(middle.effects, Run(middle.state, actions).effects);
    InputsAppend(middle.effects, Run(middle.state, Coalesce(actions)).effects);
    hide Run, Inputs, Coalesce;
  }

  lemma DispatchAccounts(c: Config, a: Action)
    requires Accounted(c)
    ensures Accounted(c.Put(a))
  {
    var l := c.ledger;
    hide Run, MeaningOf, Batch, Then;
    CoalesceInContext(l.origin, l.reduced, c.actions + [a]);
    assert l.reduced + (c.actions + [a]) == (l.reduced + c.actions) + [a];
    MeaningExtends(l.origin, l.reduced + c.actions, a);
    MeaningExtends(l.origin, l.dispatched, a);
    Idempotent(c.actions + [a]);
  }

  lemma StopAccounts(c: Config)
    ensures Accounted(c.Cleared())
  {
    var actions := [Stopped];
    assert actions[..0] == [] && [] + actions == actions;
    assert Batch([]) == Buffer([], []);
    assert Coalesce(actions) == actions;
    hide MeaningOf;
  }

  lemma EffectAccounts(c: Config)
    requires Accounted(c) && c.effects != []
    ensures Accounted(c.Took())
  {
    assert c.ledger.ran + [c.effects[0]] + c.effects[1..] == c.ledger.ran + c.effects;
    hide Run, MeaningOf, Coalesce;
  }

  lemma BatchAccounts(c: Config)
    requires Accounted(c) && c.effects == []
    ensures Accounted(c.Reduced())
  {
    var l := c.ledger;
    RunAppend(l.origin, l.reduced, c.actions);
    assert l.ran + [] == l.ran && l.reduced + c.actions + [] == l.reduced + c.actions;
    assert Coalesce([]) == [];
    hide Run, MeaningOf, Coalesce;
  }

  lemma NothingPending(c: Config)
    requires Accounted(c) && c.actions == [] && c.effects == []
    ensures Caught(c)
  {
    assert c.ledger.reduced + [] == c.ledger.reduced && c.ledger.ran + [] == c.ledger.ran;
    hide Run, Inputs;
  }

  lemma {:induction false} ReactionAccounts(c: Config, ops: seq<Op>)
    requires Accounted(c)
    ensures Accounted(c.DuringAll(ops))
  {
    hide Accounted, Coalesce;
    if ops != [] {
      var front := c.DuringAll(ops[..|ops| - 1]);
      ReactionAccounts(c, ops[..|ops| - 1]);
      match ops[|ops| - 1] {
        case Dispatch(action) => DispatchAccounts(front, action);
        case Start(dimensions) => DispatchAccounts(front, Started(dimensions));
        case Stop => StopAccounts(front);
        case Flush =>
        case Microtask => SameAccounts(front, front.(scheduled := false));
      }
    }
  }

  /** The accounts do not depend on how the next flush comes about. */
  lemma SameAccounts(c: Config, d: Config)
    requires Accounted(c) && d == c.(scheduled := d.scheduled, interrupted := d.interrupted)
    ensures Accounted(d)
  {
    hide Run, MeaningOf, Coalesce;
  }

  /** A flush keeps the accounts, and unless a handler throws everything dispatched has had its effect. */
  lemma {:induction false} DrainedAccounts(c: Config, tape: seq<Reaction>)
    requires Accounted(c) && !c.scheduled
    ensures var o := Drained(c, tape);
      Accounted(o.config) && (if o.threw then o.config.interrupted else Caught(o.config))
    decreases |tape|, c.actions != [], |c.effects|
  {
    hide Accounted, Caught, Run, Coalesce;
    if c.effects != [] {
      EffectAccounts(c);
      if tape == [] {
        DrainedAccounts(c.Took(), []);
      } else {
        var next := c.Took().DuringAll(tape[0].ops);
        ReactionAccounts(c.Took(), tape[0].ops);
        StaysUnscheduled(c.Took(), tape[0].ops);
        if tape[0].throws {
          SameAccounts(next, next.(interrupted := true));
        } else {
          DrainedAccounts(next, tape[1..]);
        }
      }
    } else if c.actions != [] {
      BatchAccounts(c);
      DrainedAccounts(c.Reduced(), tape);
    } else {
      NothingPending(c);
    }
  }

  lemma {:induction false} StaysUnscheduled(c: Config, ops: seq<Op>)
    requires !c.scheduled
    ensures !c.DuringAll(ops).scheduled
  {
    if ops != [] {
      StaysUnscheduled(c, ops[..|ops| - 1]);
    }
  }

  /** Whatever the host and the handlers do, the accounts stay right and nothing pending is forgotten. */
  lemma {:induction false} LifeAccounts(c: Config, tape: seq<Reaction>, ops: seq<Op>)
    requires Accounted(c) && Remembered(c)
    ensures Accounted(Life(c, tape, ops).config) && Remembered(Life(c, tape, ops).config)
    decreases |ops|
  {
    hide Accounted, Drained, Coalesce;
    if ops != [] {
      var next := Performed(c, tape, ops[0]);
      PerformedAccounts(c, tape, ops[0]);
      LifeAccounts(next.config, next.tape, ops[1..]);
    }
  }

  lemma FlushedAccounts(c: Config, tape: seq<Reaction>)
    requires Accounted(c)
    ensures var o := Flushed(c, tape);
      && Accounted(o.config) && Remembered(o.config) && (!o.threw ==> Caught(o.config))
  {
    hide Accounted, Drained;
    var d := c.(scheduled := false, interrupted := false);
    SameAccounts(c, d);
    DrainedAccounts(d, tape);
  }

  lemma PerformedAccounts(c: Config, tape: seq<Reaction>, op: Op)
    requires Accounted(c) && Remembered(c)
    ensures var o := Performed(c, tape, op);
      && Accounted(o.config) && Remembered(o.config)
      && ((op.Start? || op.Stop? || op.Flush?) && !o.threw ==> Caught(o.config))
  {
    hide Accounted, Caught, Flushed, Coalesce;
    match op {
      case Dispatch(action) =>
        DispatchAccounts(c, action);
        SameAccounts(c.Put(action), c.Put(action).(scheduled := true));
      case Start(dimensions) =>
        DispatchAccounts(c, Started(dimensions));
        FlushedAccounts(c.Put(Started(dimensions)), tape);
      case Stop =>
        StopAccounts(c);
        FlushedAccounts(c.Cleared(), tape);
      case Flush => FlushedAccounts(c, tape);
      case Microtask =>
        if c.scheduled {
          FlushedAccounts(c, tape);
        }
    }
  }

  lemma NewbornAccounts(dimensions: Dimensions)
    ensures Accounted(Newborn(dimensions)) && Remembered(Newborn(dimensions))
  {
    EmptyRun(InitialState(dimensions));
    hide Run;
    var none: seq<Action> := [];
    assert none + none == none && Coalesce([]) == [];
  }

  // ------------------------------------------------------------------ what the ledger records

  /** What handlers do, reaction after reaction. */
  function OpsOf(tape: seq<Reaction>): seq<Op> {
    if tape == [] then [] else tape[0].ops + OpsOf(tape[1..])
  }

  /** The actions these operations dispatch, from the last stop on. */
  function Since(dispatched: seq<Action>, ops: seq<Op>): seq<Action> {
    if ops == [] then dispatched else
      var front := Since(dispatched, ops[..|ops| - 1]);
      match ops[|ops| - 1]
      case Dispatch(action) => front + [action]
      case Start(dimensions) => front + [Started(dimensions)]
      case Stop => [Stopped]
      case _ => front
  }

  lemma {:induction false} SinceJoin(dispatched: seq<Action>, a: seq<Op>, b: seq<Op>)
    ensures Since(dispatched, a + b) == Since(Since(dispatched, a), b)
  {
    if b == [] {
      assert a + b == a;
    } else {
      SinceJoin(dispatched, a, b[..|b| - 1]);
      assert (a + b)[..|a + b| - 1] == a + b[..|b| - 1] && (a + b)[|a + b| - 1] == b[|b| - 1];
    }
  }

  lemma {:induction false} ReactionRecords(c: Config, ops: seq<Op>)
    ensures var l := c.DuringAll(ops).ledger;
      && l.dispatched == Since(c.ledger.dispatched, ops)
      && (Stop !in ops ==> l == c.ledger.(dispatched := l.dispatched))
  {
    hide Coalesce;
    if ops != [] {
      ReactionRecords(c, ops[..|ops| - 1]);
    }
  }

  /**
    A flush consumes the tape reaction by reaction and records every action its handlers dispatch and,
    unless one of them stops the view, every effect it runs behind those that ran before.
   */
  lemma {:induction false} DrainedRecords(c: Config, tape: seq<Reaction>)
    ensures Recorded(c, tape, Drained(c, tape))
    decreases |tape|, c.actions != [], |c.effects|
  {
    hide Run, Coalesce, Config.DuringAll, Since, Recorded;
    if c.effects != [] {
      var next := Reacted(c, tape);
      if tape == [] {
        DrainedRecords(next, []);
        RecordedEffect(c, tape, Drained(next, []));
      } else {
        if !tape[0].throws {
          DrainedRecords(next, tape[1..]);
          RecordedEffect(c, tape, Drained(next, tape[1..]));
        } else {
          RecordedThrow(c, tape);
        }
      }
    } else if c.actions != [] {
      DrainedRecords(c.Reduced(), tape);
      RecordedBatch(c, tape, Drained(c, tape));
    } else {
      RecordedNothing(c, tape);
    }
  }

  ghost predicate Recorded(c: Config, tape: seq<Reaction>, o: Outcome) {
    var n := |tape| - |o.tape|;
    && n >= 0 && o.tape == tape[n..] && n <= |o.ran| && (n < |o.ran| ==> o.tape == [])
    && o.config.ledger.dispatched == Since(c.ledger.dispatched, OpsOf(tape[..n]))
    && (Stop !in OpsOf(tape[..n]) ==>
          && o.config.ledger.origin == c.ledger.origin && c.ledger.reduced <= o.config.ledger.reduced
          && o.config.ledger.ran == c.ledger.ran + o.ran)
  }

  lemma RecordedNothing(c: Config, tape: seq<Reaction>)
    ensures Recorded(c, tape, Outcome(c, tape, false, []))
  {
    assert tape[..0] == [] && c.ledger.ran + [] == c.ledger.ran;
  }

  lemma RecordedBatch(c: Config, tape: seq<Reaction>, o: Outcome)
    requires Recorded(c.Reduced(), tape, o)
    ensures Recorded(c, tape, o)
  {
    hide Run, Since, OpsOf;
  }

  lemma RecordedThrow(c: Config, tape: seq<Reaction>)
    requires c.effects != [] && tape != []
    ensures Recorded(c, tape, Outcome(Reacted(c, tape).(interrupted := true), tape[1..], true, [c.effects[0]]))
  {
    ReactionRecords(c.Took(), tape[0].ops);
    assert tape[..1][1..] == [] && OpsOf([]) == [];
    assert OpsOf(tape[..1]) == tape[0].ops;
    hide Since, OpsOf, Config.DuringAll;
  }

  lemma RecordedEffect(c: Config, tape: seq<Reaction>, o: Outcome)
    requires c.effects != [] && Recorded(Reacted(c, tape), if tape == [] then [] else tape[1..], o)
    ensures Recorded(c, tape, o.After([c.effects[0]]))
  {
    hide Since, Config.DuringAll;
    var l, e, n := c.ledger, c.effects[0], |tape| - |o.tape|;
    assert l.ran + [e] + o.ran == l.ran + ([e] + o.ran);
    if tape != [] {
      ReactionRecords(c.Took(), tape[0].ops);
      assert tape[..n][1..] == tape[1..][..n - 1] && tape[..n][0] == tape[0];
      SinceJoin(l.dispatched, tape[0].ops, OpsOf(tape[1..][..n - 1]));
    }
  }
}
