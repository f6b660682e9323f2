/**
  Cancellation and effect admission of one run (packages/agent/src/run-scope.ts).
 */
module RunScopes {
  datatype RunState = Reserved | Active | Settling | Settled

  /** States follow one another in this order. */
  function Rank(state: RunState): nat {
    match state
    case Reserved => 0
    case Active => 1
    case Settling => 2
    case Settled => 3
  }

  /** What the scope remembers; `aborted` is the flag of its abort controller's signal. */
  datatype Scope = Scope(state: RunState, cancelRequested: bool, aborted: bool) {
    predicate Admits() {
      state == Active && !cancelRequested && !aborted
    }

    ghost predicate Valid() {
      && (cancelRequested ==> aborted)
      && state != Settling
    }

    function Apply(op: ScopeOp): Scope {
      match op
      case Activate => if state == Reserved then this.(state := Active) else this
      case RequestCancel => if state == Settled then this else this.(cancelRequested := true, aborted := true)
      case AbortController => this.(aborted := true)
      case Settle => this.(state := Settled)
    }

    function ApplyAll(ops: seq<ScopeOp>): Scope
      decreases |ops|
    {
      if ops == [] then this else Apply(ops[0]).ApplyAll(ops[1..])
    }

    /** Later scopes only ever lose permissions; the first activation is the one exception. */
    ghost predicate LeadsTo(later: Scope) {
      && (cancelRequested ==> later.cancelRequested)
      && (aborted ==> later.aborted)
      && Rank(state) <= Rank(later.state)
    }

    /** Nothing but a cancellation has happened in between. */
    ghost predicate OnlyCancels(later: Scope) {
      && state == later.state
      && (cancelRequested ==> later.cancelRequested)
      && (aborted ==> later.aborted)
    }
  }

  datatype ScopeOp = Activate | RequestCancel | AbortController | Settle

  lemma {:induction false} OpsLead(s: Scope, ops: seq<ScopeOp>)
    requires s.Valid()
    ensures s.ApplyAll(ops).Valid() && s.LeadsTo(s.ApplyAll(ops))
    decreases |ops|
  {
    if ops != [] {
      OpsLead(s.Apply(ops[0]), ops[1..]);
    }
  }

  /**
    Admission is never regained: a scope that has left `reserved` and refuses now refuses after
    every further sequence of calls.
   */
  lemma {:induction false} RefusalIsFinal(s: Scope, ops: seq<ScopeOp>)
    requires s.Valid() && s.state != Reserved && !s.Admits()
    ensures !s.ApplyAll(ops).Admits()
  {
    OpsLead(s, ops);
  }

  class RunScope {
    const generation: nat
    var state: RunState
    var cancelRequested: bool
    var aborted: bool

    ghost function View(): Scope
      reads this
    {
      Scope(state, cancelRequested, aborted)
    }

    constructor (generation: nat)
      ensures View() == Scope(Reserved, false, false) && this.generation == generation
    {
      this.generation := generation;
      state, cancelRequested, aborted := Reserved, false, false;
    }

    /** False stands for the error thrown when the scope is not reserved. */
    method Activate() returns (ok: bool)
      modifies this
      ensures View() == old(View()).Apply(ScopeOp.Activate) && ok == (old(state) == Reserved)
    {
      ok := state == Reserved;
      if ok {
        state := Active;
      }
    }

    method RequestCancel()
      modifies this
      ensures View() == old(View()).Apply(ScopeOp.RequestCancel)
    {
      if state == Settled {
        return;
      }
      cancelRequested := true;
      aborted := true;
    }

    predicate CanAdmit(generation: nat)
      reads this
    {
      state == Active && !cancelRequested && !aborted && generation == this.generation
    }

    method Settle()
      modifies this
      ensures View() == old(View()).Apply(ScopeOp.Settle)
    {
      if state == Settled {
        return;
      }
      state := Settling;
      state := Settled;
    }
  }
}
