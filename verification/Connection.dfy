/**
  The client connection: one lifecycle that callbacks, stale transports and re-entrant calls all act on
  (packages/client/src/connection.ts).
 */
module Connections {
  import opened Wrappers

  /** `id` numbers the attempt, `transport` the transport obtained; `handshake`: its promise is still held. */
  datatype Lifecycle =
    | Disconnected
    | Connecting(id: nat, pending: Option<nat>)
    | Connected(id: nat, transport: nat, handshake: bool)

  datatype Note = NoteConnecting | NoteConnected | NoteDisconnected

  datatype Outcome = Unsettled | Resolved | Rejected

  /** `Closing`: a frame on the stack will close it; `Leaked`: that frame was abandoned by an exception. */
  datatype Fate = Held | Closing | ClosedByUs | SelfClosed | Leaked

  datatype ServerMessage = Hello | HelloError | Other(payload: int)

  /** A message handed to the client: the attempt whose data it came in, and the current one. */
  datatype Delivery = Delivery(source: nat, current: nat, message: ServerMessage)

  // ------------------------------------------------------------------ notifications

  datatype Stage = Idle | Started | Established | Broken

  function Next(stage: Stage, note: Note): Stage {
    match note
    case NoteConnecting => if stage == Idle then Started else Broken
    case NoteConnected => if stage == Started then Established else Broken
    case NoteDisconnected => if stage == Started || stage == Established then Idle else Broken
  }

  function StageOf(notes: seq<Note>): Stage {
    if notes == [] then Idle else Next(StageOf(notes[..|notes| - 1]), notes[|notes| - 1])
  }

  lemma StageExtends(notes: seq<Note>, note: Note)
    ensures StageOf(notes + [note]) == Next(StageOf(notes), note)
  {
    assert (notes + [note])[..|notes|] == notes;
  }

  /** (connecting connected? disconnected)*, possibly cut short. */
  predicate Pattern(notes: seq<Note>) {
    forall i | 0 <= i < |notes| :: Fits(notes, i)
  }

  predicate Fits(notes: seq<Note>, i: nat)
    requires i < |notes|
  {
    match notes[i]
    case NoteConnecting => i == 0 || notes[i - 1] == NoteDisconnected
    case NoteConnected => i > 0 && notes[i - 1] == NoteConnecting
    case NoteDisconnected => i > 0 && notes[i - 1] != NoteDisconnected
  }

  lemma {:induction false} StageIsPattern(notes: seq<Note>)
    ensures StageOf(notes) != Broken <==> Pattern(notes)
    ensures StageOf(notes) == Broken ||
      StageOf(notes) == if notes == [] then Idle else match notes[|notes| - 1] {
        case NoteConnecting => Started case NoteConnected => Established case NoteDisconnected => Idle }
  {
    if notes != [] {
      var n := |notes| - 1;
      StageIsPattern(notes[..n]);
      assert forall i | 0 <= i < n :: Fits(notes[..n], i) == Fits(notes, i);
      assert Pattern(notes) <==> Pattern(notes[..n]) && Fits(notes, n);
    }
  }

  // ------------------------------------------------------------------ the state between any two calls

  /** The lifecycle with everything that has come of it: `outcomes[i]` settles attempt `i + 1`. */
  datatype State = State(
    lifecycle: Lifecycle, sequence: nat, notes: seq<Note>, outcomes: seq<Outcome>, fates: seq<Fate>,
        deliveries: seq<Delivery>)
  {
    predicate HoldsHandshake() {
      lifecycle.Connecting? || (lifecycle.Connected? && lifecycle.handshake)
    }

    function Transport(): Option<nat> {
      match lifecycle
      case Disconnected => None
      case Connecting(_, t) => t
      case Connected(_, t, _) => Some(t)
    }

    predicate IsCurrent(id: nat) {
      !lifecycle.Disconnected? && lifecycle.id == id
    }

    /** A handshake is unsettled exactly while the current lifecycle holds it. */
    ghost predicate HandshakesSettled() {
      && |outcomes| == sequence
      && forall i | 0 <= i < sequence :: outcomes[i] == Unsettled <==> i + 1 == sequence && HoldsHandshake()
    }

    /** A transport is held exactly while it is the current lifecycle's. */
    ghost predicate TransportsAccounted() {
      && (Transport().Some? ==> Transport().value < |fates|)
      && forall t | 0 <= t < |fates| :: fates[t] == Held <==> Transport() == Some(t)
    }

    ghost predicate Notified() {
      match lifecycle
      case Disconnected => StageOf(notes) == Idle
      case Connecting(_, _) => StageOf(notes) == Started
      case Connected(_, _, handshake) => StageOf(notes) == Established || (handshake && StageOf(notes) == Started)
    }

    ghost predicate Consistent() {
      && (!lifecycle.Disconnected? ==> lifecycle.id == sequence && sequence > 0)
      && HandshakesSettled() && TransportsAccounted() && Notified()
      && (lifecycle.Connected? && !lifecycle.handshake ==> outcomes[sequence - 1] == Resolved)
      && forall d | d in deliveries :: d.source == d.current
    }

    /** How far the current attempt has come. */
    ghost function Phase(): nat {
      match lifecycle
      case Connecting(_, None) => 0
      case Connecting(_, Some(_)) => 1
      case Connected(_, _, true) => if StageOf(notes) == Started then 2 else 3
      case Connected(_, _, false) => 4
      case Disconnected => 5
    }

    /** Attempts only advance, and one that has reached its handshake stays as it is or ends. */
    ghost predicate Advances(s: State) {
      sequence < s.sequence ||
      (sequence == s.sequence && Phase() <= s.Phase() &&
        (Phase() >= 2 ==> (s.lifecycle == lifecycle && s.Phase() == Phase()) || s.Phase() == 5))
    }

    /** Settled handshakes stay settled, released transports keep their fate, none is left half closed. */
    ghost predicate Keeps(s: State) {
      && (forall i | 0 <= i < |outcomes| && outcomes[i] != Unsettled ::
          i < |s.outcomes| && s.outcomes[i] == outcomes[i])
      && |fates| <= |s.fates|
      && (forall t | 0 <= t < |fates| && fates[t] != Held :: s.fates[t] == fates[t])
      && (forall t | 0 <= t < |s.fates| && s.fates[t] == Closing :: t < |fates| && fates[t] == Closing)
      && notes <= s.notes && deliveries <= s.deliveries
    }

    /** What any call does to the state by the time it returns. */
    ghost predicate LeadsTo(s: State) {
      Advances(s) && Keeps(s)
    }

    // ---------------------------------------------------------------- transitions

    function Began(): State {
      this.(lifecycle := Connecting(sequence + 1, None), sequence := sequence + 1, notes := notes + [NoteConnecting],
            outcomes := outcomes + [Unsettled])
    }

    /** The factory has produced a transport for the attempt that still waits for it. */
    function Obtained(): State
      requires lifecycle.Connecting?
    {
      this.(lifecycle := Connecting(lifecycle.id, Some(|fates|)), fates := fates + [Held])
    }

    /** A transport nobody waits for any more is closed at once. */
    function Declined(): State {
      this.(fates := fates + [ClosedByUs])
    }

    function Greeted(): State
      requires lifecycle.Connecting? && lifecycle.pending.Some?
    {
      this.(lifecycle := Connected(lifecycle.id, lifecycle.pending.value, true))
    }

    function Announced(): State {
      this.(notes := notes + [NoteConnected])
    }

    function Completed(): State
      requires lifecycle.Connected? && |outcomes| == sequence > 0
    {
      this.(lifecycle := Connected(lifecycle.id, lifecycle.transport, false),
          outcomes := outcomes[sequence - 1 := Resolved])
    }

    /** The lifecycle ends: its handshake is rejected if still held, its transport goes to `fate`. */
    function Dropped(fate: Fate): State
      requires !lifecycle.Disconnected? && |outcomes| == sequence > 0
      requires Transport().Some? ==> Transport().value < |fates|
    {
      this.(lifecycle := Disconnected, notes := notes + [NoteDisconnected],
            outcomes := if HoldsHandshake() then outcomes[sequence - 1 := Rejected] else outcomes,
            fates := if Transport().Some? then fates[Transport().value := fate] else fates)
    }

    /** A frame that was to close `t` has done so, or was abandoned. */
    function Released(t: nat, fate: Fate): State
      requires t < |fates|
    {
      this.(fates := fates[t := fate])
    }

    function Delivered(source: nat, message: ServerMessage): State
      requires !lifecycle.Disconnected?
    {
      this.(deliveries := deliveries + [Delivery(source, lifecycle.id, message)])
    }
  }

  const INITIAL: State := State(Disconnected, 0, [], [], [], [])

  lemma LeadsToTrans(a: State, b: State, c: State)
    requires a.LeadsTo(b) && b.LeadsTo(c)
    ensures a.LeadsTo(c)
  {
    hide StageOf;
  }

  lemma KeepsTrans(a: State, b: State, c: State)
    requires a.Keeps(b) && b.Keeps(c)
    ensures a.Keeps(c)
  {
  }

  lemma LeadsToSelf(a: State)
    ensures a.LeadsTo(a)
  {
  }

  lemma BeganKeeps(s: State)
    requires s.Consistent() && s.lifecycle.Disconnected?
    ensures s.Began().Consistent() && s.LeadsTo(s.Began())
  {
    StageExtends(s.notes, NoteConnecting);
  }

  lemma ObtainedKeeps(s: State)
    requires s.Consistent() && s.lifecycle.Connecting? && s.lifecycle.pending.None?
    ensures s.Obtained().Consistent() && s.LeadsTo(s.Obtained())
  {
    hide StageOf;
  }

  lemma DeclinedKeeps(s: State)
    requires s.Consistent()
    ensures s.Declined().Consistent() && s.LeadsTo(s.Declined())
  {
    hide StageOf;
  }

  lemma GreetedKeeps(s: State)
    requires s.Consistent() && s.lifecycle.Connecting? && s.lifecycle.pending.Some?
    ensures s.Greeted().Consistent() && s.LeadsTo(s.Greeted()) && s.Phase() < 2 && s.Greeted().Phase() == 2
  {
    hide StageOf;
  }

  lemma AnnouncedKeeps(s: State)
    requires s.Consistent() && s.Phase() == 2
    ensures s.Announced().Consistent() && s.Announced().Phase() == 3 && s.Keeps(s.Announced())
  {
    StageExtends(s.notes, NoteConnected);
    hide StageOf;
  }

  lemma CompletedKeeps(s: State)
    requires s.Consistent() && s.Phase() == 3
    ensures s.Completed().Consistent() && s.Completed().Phase() == 4 && s.Keeps(s.Completed())
  {
    hide StageOf;
  }

  lemma DroppedKeeps(s: State, fate: Fate)
    requires s.Consistent() && !s.lifecycle.Disconnected? && fate != Held
    ensures s.Dropped(fate).Consistent() && (fate != Closing ==> s.LeadsTo(s.Dropped(fate)))
  {
    StageExtends(s.notes, NoteDisconnected);
  }

  lemma DeliveredKeeps(s: State, source: nat, message: ServerMessage)
    requires s.Consistent() && s.IsCurrent(source)
    ensures s.Delivered(source, message).Consistent() && s.LeadsTo(s.Delivered(source, message))
  {
    hide StageOf;
  }

  /**
    A transport is dropped to be closed, other code runs, and the close is carried out or never
    reached: seen from outside, the transport went straight to its final fate.
   */
  lemma ClosedKeeps(a: State, b: State, fate: Fate)
    requires a.Consistent() && !a.lifecycle.Disconnected? && a.Transport().Some?
    requires fate == ClosedByUs || fate == Leaked
    requires a.Dropped(Closing).LeadsTo(b) && b.Consistent()
    ensures a.Transport().value < |b.fates| && b.fates[a.Transport().value] == Closing
    ensures b.Released(a.Transport().value, fate).Consistent() && a.LeadsTo(b.Released(a.Transport().value, fate))
  {
    hide StageOf;
    var t := a.Transport().value;
    var c := b.Released(t, fate);
    assert b.fates[t] == Closing;
    assert c.Phase() == b.Phase();
  }

  // ------------------------------------------------------------------ the connection

  /** What other code does: calls of the client, events of transports, and promises that settle. */
  datatype Op =
    | Connect | Disconnect | Fail | Send
    | Data(id: nat, decoded: Option<seq<ServerMessage>>)
    | TransportClosed(id: nat) | TransportFailed(id: nat)
    | FactoryResolved(id: nat) | FactoryRejected(id: nat)
    | HelloRejected(id: nat) | SendRejected(transport: nat)
  {
    /** The operation ends the current lifecycle. */
    predicate Ends(s: State, opening: set<nat>) {
      match this
      case Disconnect => !s.lifecycle.Disconnected?
      case Fail => !s.lifecycle.Disconnected?
      case Data(id, decoded) =>
        s.IsCurrent(id) && (decoded.None? || (s.lifecycle.Connecting? && s.Transport().None?))
      case TransportClosed(id) => s.IsCurrent(id)
      case TransportFailed(id) => s.IsCurrent(id)
      case HelloRejected(id) => s.IsCurrent(id)
      case FactoryRejected(id) => id in opening && s.IsCurrent(id)
      case SendRejected(transport) => s.Transport() == Some(transport)
      case _ => false
    }

    /** The operation comes at the wrong time, or belongs to an earlier attempt. */
    predicate IsStale(s: State, opening: set<nat>) {
      match this
      case Connect => !s.lifecycle.Disconnected?
      case Disconnect => s.lifecycle.Disconnected?
      case Fail => s.lifecycle.Disconnected?
      case Send => !s.lifecycle.Connected?
      case Data(id, _) => !s.IsCurrent(id)
      case TransportClosed(id) => !s.IsCurrent(id)
      case TransportFailed(id) => !s.IsCurrent(id)
      case HelloRejected(id) => !s.IsCurrent(id)
      case FactoryResolved(id) => id !in opening
      case FactoryRejected(id) => id !in opening || !s.IsCurrent(id)
      case SendRejected(transport) => s.Transport() != Some(transport)
    }
  }

  /** One run of user code, called back by the connection: what it does before it returns or throws. */
  datatype Callback = Callback(ops: seq<Op>, throws: bool)

  /** No callback on the tape throws. */
  ghost predicate Polite(tape: seq<Callback>) {
    forall i | 0 <= i < |tape| :: !tape[i].throws
  }

  ghost predicate NoLeaks(fates: seq<Fate>) {
    forall i | 0 <= i < |fates| :: fates[i] != Leaked
  }

  /** Why user code is called: to be told of a disconnection that is to close a transport, or for anything else. */
  datatype Reason = BeforeClose(transport: nat) | Otherwise

  /** A call of user code, and whether it threw. */
  datatype Call = Call(reason: Reason, threw: bool)

  /** The operations of callbacks to come. */
  ghost function OpsIn(tape: seq<Callback>): multiset<Op> {
    if tape == [] then multiset{} else multiset(tape[0].ops) + OpsIn(tape[1..])
  }

  /** A transport is leaked only if the call that came before closing it threw, and closed only if it did not. */
  ghost predicate FatesExplained(log: seq<Call>, fates: seq<Fate>) {
    && (forall i | 0 <= i < |log| && log[i].reason.BeforeClose? ::
          && log[i].reason.transport < |fates|
          && fates[log[i].reason.transport] in {Closing, if log[i].threw then Leaked else ClosedByUs})
    && (forall i, j |
          0 <= i < |log| && 0 <= j < |log| && log[i].reason.BeforeClose? && log[i].reason == log[j].reason ::
          log[i].threw == log[j].threw)
    && (forall t | 0 <= t < |fates| && fates[t] == Leaked :: Call(BeforeClose(t), true) in log)
  }

  /** User code is called once more; it is told of a disconnection while the transport waits to be closed. */
  lemma OneMoreCall(log: seq<Call>, fates: seq<Fate>, call: Call)
    requires FatesExplained(log, fates)
    requires call.reason.BeforeClose? ==>
      && call.reason.transport < |fates| && fates[call.reason.transport] == Closing
      && forall c | c in log :: c.reason != call.reason
    ensures FatesExplained(log + [call], fates)
  {
  }

  /** Transports come, and those that are held change hands. */
  lemma FatesMove(log: seq<Call>, fates: seq<Fate>, after: seq<Fate>)
    requires FatesExplained(log, fates) && |fates| <= |after|
    requires forall t | 0 <= t < |after| ::
      if t < |fates| && fates[t] != Held then after[t] == fates[t] else after[t] != Leaked
    ensures FatesExplained(log, after)
  {
  }

  /** What becomes of a transport that waits to be closed. */
  lemma FateDecided(log: seq<Call>, fates: seq<Fate>, t: nat, threw: bool)
    requires FatesExplained(log, fates) && t < |fates| && fates[t] == Closing && Call(BeforeClose(t), threw) in log
    ensures FatesExplained(log, fates[t := if threw then Leaked else ClosedByUs])
  {
  }

  /** A transport that is held has not been closed. */
  lemma HeldNotCalled(log: seq<Call>, fates: seq<Fate>, t: nat)
    requires FatesExplained(log, fates) && t < |fates| && fates[t] == Held
    ensures forall c | c in log :: c.reason != BeforeClose(t)
  {
  }

  class Connection {
    var lifecycle: Lifecycle
    var sequence: nat
    /** Attempts whose transport factory has not answered yet. */
    var opening: set<nat>
    /** How many transports have been obtained; they are numbered in that order. */
    var transports: nat
    /** The behaviour of every callback to come, however deeply nested; all tapes are all interleavings. */
    var tape: seq<Callback>
    ghost var notes: seq<Note>
    ghost var outcomes: seq<Outcome>
    ghost var fates: seq<Fate>
    ghost var deliveries: seq<Delivery>

    ghost function View(): State
      reads this
    {
      State(lifecycle, sequence, notes, outcomes, fates, deliveries)
    }

    /** Attempts whose factory has been asked. */
    ghost var asked: set<nat>
    /** The tape as it was, every call of user code so far, and every operation performed so far. */
    ghost const script: seq<Callback>
    ghost var log: seq<Call>
    ghost var done: multiset<Op>

    /** Every call has been answered by the next callback of the tape, or by none once it had run out. */
    ghost predicate Answered()
      reads this`log, this`tape
    {
      && tape == (if |log| <= |script| then script[|log|..] else [])
      && forall i | 0 <= i < |log| :: log[i].threw == (i < |script| && script[i].throws)
    }

    /** The operations performed, and those that callbacks will perform. */
    ghost function Concerns(): multiset<Op>
      reads this`done, this`tape
    {
      done + OpsIn(tape)
    }

    ghost predicate Valid()
      reads this
    {
      && View().Consistent() && transports == |fates| && Answered() && FatesExplained(log, fates)
      && opening <= asked && (forall id | id in asked :: id <= sequence)
      && (lifecycle.Connecting? ==> if lifecycle.id in opening then lifecycle.pending.None?
                                    else lifecycle.pending.Some? ==> lifecycle.id in asked)
    }

    /** What every call keeps, whatever runs inside it; whatever runs performs all its operations. */
    twostate predicate Onward()
      reads this
    {
      Moves() && Concerns() == old(Concerns())
    }

    twostate predicate Moves()
      reads this
    {
      && Valid() && old(log) <= log && old(View()).LeadsTo(View()) && |tape| <= |old(tape)| && old(sequence) <= sequence
      && (forall id | id in asked && id <= old(sequence) :: id in old(asked))
      && (Polite(old(tape)) ==> Polite(tape) && (NoLeaks(old(fates)) ==> NoLeaks(fates)))
    }

    constructor (tape: seq<Callback>)
      ensures Valid() && View() == INITIAL && this.tape == tape && script == tape && log == [] && done == multiset{}
    {
      script, log, done := tape, [], multiset{};
      lifecycle, sequence, opening, transports, this.tape := Disconnected, 0, {}, 0, tape;
      notes, outcomes, fates, deliveries, asked := [], [], [], [], {};
    }

    /** Enter a state computed by one of the transitions. */
    ghost method Account(s: State)
      modifies this`notes, this`outcomes, this`fates, this`deliveries
      ensures notes == s.notes && outcomes == s.outcomes && fates == s.fates && deliveries == s.deliveries
    {
      notes, outcomes, fates, deliveries := s.notes, s.outcomes, s.fates, s.deliveries;
    }

    /** The client has been told that the current attempt is over, and its handshake is settled. */
    twostate predicate Ended()
      reads this
    {
      && old(notes) + [NoteDisconnected] <= notes && 0 < old(sequence) <= |outcomes|
      && outcomes[old(sequence) - 1] == if old(View()).HoldsHandshake() then Rejected else Resolved
    }

    predicate IsCurrent(id: nat)
      reads this
    {
      !lifecycle.Disconnected? && lifecycle.id == id
    }

    function Transport(): Option<nat>
      reads this
    {
      match lifecycle
      case Disconnected => None
      case Connecting(_, t) => t
      case Connected(_, t, _) => Some(t)
    }

    /** The next callback throws, which its caller learns only afterwards. */
    predicate NextThrows()
      reads this
    {
      tape != [] && tape[0].throws
    }

    /** The next `n` callbacks do nothing to the connection and return. */
    predicate QuietFor(n: nat)
      reads this
    {
      n <= |tape| && forall i | 0 <= i < n :: tape[i] == Callback([], false)
    }

    /** Nothing has happened but `n` callbacks. */
    twostate predicate Untouched(n: nat)
      requires n <= |old(tape)|
      reads this
    {
      && View() == old(View()) && tape == old(tape)[n..]
      && opening == old(opening) && asked == old(asked) && transports == old(transports)
    }

    /** User code runs; it may call back into the connection. */
    method CallBack(ghost reason: Reason) returns (threw: bool)
      requires Valid()
      requires reason.BeforeClose? ==>
        && reason.transport < |fates| && fates[reason.transport] == Closing
        && forall c | c in log :: c.reason != reason
      modifies this
      ensures Onward() && (threw <==> old(NextThrows())) && old(log) + [Call(reason, threw)] <= log
      ensures old(QuietFor(1)) ==> Untouched(1)
      decreases |tape|, 0
    {
      hide State.Consistent, State.LeadsTo, FatesExplained, OpsIn, Connection.Answered, Connection.Concerns;
      LeadsToSelf(View());
      var ops;
      ops, threw := Pop(reason);
      ghost var concerns := Concerns();
      assert ops[..0] == [];
      for i := 0 to |ops|
        invariant Moves() && |tape| <= |old(tape)| && (ops != [] ==> |tape| < |old(tape)|)
        invariant old(log) + [Call(reason, threw)] <= log
        invariant Concerns() == concerns + multiset(ops[..i])
        invariant i == 0 ==> old(QuietFor(1)) ==> Untouched(1)
      {
        ghost var before, earlier := View(), Concerns();
        var _ := Perform(ops[i]);
        LeadsToTrans(old(View()), before, View());
        OneMoreOp(concerns, earlier, Concerns(), ops, i);
      }
      assert ops[..|ops|] == ops;
    }

    /** The next callback of the tape answers the call. */
    method Pop(ghost reason: Reason) returns (ops: seq<Op>, threw: bool)
      requires Valid()
      requires reason.BeforeClose? ==>
        && reason.transport < |fates| && fates[reason.transport] == Closing
        && forall c | c in log :: c.reason != reason
      modifies this`tape, this`log
      ensures Valid() && (threw <==> old(NextThrows())) && log == old(log) + [Call(reason, threw)]
      ensures ops == if old(tape) == [] then [] else old(tape)[0].ops
      ensures tape == if old(tape) == [] then [] else old(tape)[1..]
      ensures Concerns() + multiset(ops) == old(Concerns())
    {
      hide State.Consistent, State.LeadsTo, FatesExplained, OpsIn;
      OneMoreCall(log, fates, Call(reason, NextThrows()));
      log := log + [Call(reason, NextThrows())];
      ops, threw := [], false;
      if tape != [] {
        OpsOfFirst(tape);
        ops, threw := tape[0].ops, tape[0].throws;
        assert tape[1..] == script[|log|..];
        tape := tape[1..];
      }
    }

    ghost method Undertake(op: Op)
      requires Valid()
      modifies this`done
      ensures Valid() && Concerns() == old(Concerns()) + multiset{op}
    {
      hide State.Consistent, FatesExplained, OpsIn, Connection.Answered;
      done := done + multiset{op};
    }

    /** One thing other code does. */
    method Perform(op: Op) returns (threw: bool)
      requires Valid()
      modifies this
      ensures Moves() && Concerns() == old(Concerns()) + multiset{op}
      ensures Polite(old(tape)) ==> !threw || op.Send?
      ensures op.Connect? && old(lifecycle).Disconnected? ==>
        sequence > old(sequence) && old(notes) + [NoteConnecting] <= notes
      ensures op.Ends(old(View()), old(opening)) ==> Ended()
      ensures op.FactoryResolved? && op.id in old(opening) ==>
        if old(lifecycle).Connecting? && old(lifecycle).id == op.id then old(View()).Obtained().LeadsTo(View())
        else old(View()).Declined().LeadsTo(View())
      ensures op.TransportClosed? && old(IsCurrent(op.id)) && old(Transport()).Some? ==>
        old(Transport()).value < |fates| && fates[old(Transport()).value] == SelfClosed
      ensures op.IsStale(old(View()), old(opening)) ==> View() == old(View())
      decreases |tape|, 10
    {
      hide State.Consistent, State.LeadsTo, FatesExplained, OpsIn, Connection.Answered, Connection.Concerns;
      LeadsToSelf(View());
      Undertake(op);
      match op {
        case Connect => threw := Connect();
        case Disconnect => threw := FailAndClose();
        case Fail => threw := FailAndClose();
        case Send => threw := Send();
        case Data(id, decoded) => threw := HandleData(id, decoded);
        case TransportClosed(id) => threw := HandleClose(id);
        case TransportFailed(id) => threw := FailIfCurrent(id);
        case FactoryResolved(id) => threw := FactoryResolved(id);
        case FactoryRejected(id) => threw := FactoryRejected(id);
        case HelloRejected(id) => threw := FailIfCurrent(id);
        case SendRejected(transport) =>
          threw := false;
          if Transport() == Some(transport) {
            threw := FailAndClose();
          }
      }
    }

    /** `connect`: a new attempt unless there is one. */
    method Connect() returns (threw: bool)
      requires Valid()
      modifies this
      ensures Onward() && (Polite(old(tape)) ==> !threw)
      ensures !old(lifecycle).Disconnected? ==> View() == old(View())
      ensures old(lifecycle).Disconnected? ==> sequence > old(sequence) && old(notes) + [NoteConnecting] <= notes
      ensures old(lifecycle).Disconnected? && old(QuietFor(2)) ==>
        View() == old(View()).Began() && sequence in opening && tape == old(tape)[2..]
      decreases |tape|, 8
    {
      hide State.Consistent, State.LeadsTo, State.Phase, FatesExplained, OpsIn, Connection.Answered,
           Connection.Concerns;
      LeadsToSelf(View());
      if lifecycle.Disconnected? {
        BeganKeeps(View());
        ghost var begun := View().Began();
        sequence := sequence + 1;
        lifecycle := Connecting(sequence, None);
        Account(begun);
        var id := sequence;
        threw := CallBack(Otherwise);
        LeadsToTrans(old(View()), begun, View());
        KeepsSettled(begun, View());
        if !threw {
          ghost var before := View();
          OpenTransport(id);
          LeadsToTrans(old(View()), before, View());
          KeepsSettled(before, View());
        }
      } else {
        threw := false;
      }
    }

    /** Ask the factory for a transport; what it answers comes later. */
    method OpenTransport(id: nat)
      requires Valid() && id <= sequence && id !in asked
      modifies this
      ensures old(log) <= log && Concerns() == old(Concerns())
      ensures Valid() && old(View()).LeadsTo(View()) && |tape| <= |old(tape)| && old(sequence) <= sequence
      ensures forall i | i in asked && i <= old(sequence) :: i in old(asked) || i == id
      ensures Polite(old(tape)) ==> Polite(tape) && (NoLeaks(old(fates)) ==> NoLeaks(fates))
      ensures old(QuietFor(1)) ==> View() == old(View()) && id in opening && tape == old(tape)[1..]
      decreases |tape|, 7
    {
      hide State.Consistent, State.LeadsTo, State.Phase, FatesExplained, OpsIn, Connection.Answered,
           Connection.Concerns;
      var threw := CallBack(Otherwise);
      if threw {
        if IsCurrent(id) {
          ghost var before := View();
          var _ := FailWithoutClose();
          LeadsToTrans(old(View()), before, View());
        }
      } else {
        opening, asked := opening + {id}, asked + {id};
      }
    }

    /** The transport is there: take it, or close it when its attempt is over. */
    method FactoryResolved(id: nat) returns (threw: bool)
      requires Valid()
      modifies this
      ensures Onward() && (Polite(old(tape)) ==> !threw)
      ensures if id !in old(opening) then View() == old(View())
              else if old(lifecycle).Connecting? && old(lifecycle).id == id then old(View()).Obtained().LeadsTo(View())
              else old(View()).Declined().LeadsTo(View())
      ensures old(QuietFor(1)) && id in old(opening) && old(lifecycle).Connecting? && old(lifecycle).id == id ==>
        View() == old(View()).Obtained() && tape == old(tape)[1..]
      decreases |tape|, 8
    {
      hide State.Consistent, State.LeadsTo, State.Phase, FatesExplained, OpsIn, Connection.Answered,
           Connection.Concerns;
      LeadsToSelf(View());
      threw := false;
      if id in opening {
        opening := opening - {id};
        if lifecycle.Connecting? && lifecycle.id == id {
          ObtainedKeeps(View());
          ghost var obtained := View().Obtained();
          FatesMove(log, fates, obtained.fates);
          lifecycle, transports := Connecting(id, Some(transports)), transports + 1;
          Account(obtained);
          threw := SendHello(id);
          LeadsToTrans(old(View()), obtained, View());
        } else {
          DeclinedKeeps(View());
          ghost var declined := View().Declined();
          FatesMove(log, fates, declined.fates);
          transports := transports + 1;
          Account(declined);
          threw := CallBack(Otherwise);
          LeadsToTrans(old(View()), declined, View());
        }
      }
    }

    method SendHello(id: nat) returns (threw: bool)
      requires Valid()
      modifies this
      ensures Onward() && (Polite(old(tape)) ==> !threw)
      ensures old(QuietFor(1)) ==> Untouched(1)
      decreases |tape|, 7
    {
      hide State.Consistent, State.LeadsTo, State.Phase, FatesExplained, OpsIn, Connection.Answered,
           Connection.Concerns;
      threw := CallBack(Otherwise);
      if threw {
        ghost var before := View();
        threw := FailIfCurrent(id);
        LeadsToTrans(old(View()), before, View());
      }
    }

    method FactoryRejected(id: nat) returns (threw: bool)
      requires Valid()
      modifies this
      ensures Onward() && (Polite(old(tape)) ==> !threw)
      ensures if id in old(opening) && old(IsCurrent(id)) then Ended() else View() == old(View())
      decreases |tape|, 7
    {
      hide State.Consistent, State.LeadsTo, State.Phase, FatesExplained, OpsIn, Connection.Answered,
           Connection.Concerns;
      LeadsToSelf(View());
      threw := false;
      if id in opening {
        opening := opening - {id};
        if IsCurrent(id) {
          threw := FailWithoutClose();
        }
      }
    }

    /** Errors of a transport or of a promise of an earlier attempt are ignored. */
    method FailIfCurrent(id: nat) returns (threw: bool)
      requires Valid()
      modifies this
      ensures Onward() && (Polite(old(tape)) ==> !threw)
      ensures if old(IsCurrent(id)) then Ended() else View() == old(View())
      decreases |tape|, 6
    {
      hide State.Consistent, State.LeadsTo, State.Phase, FatesExplained, OpsIn, Connection.Answered,
           Connection.Concerns;
      LeadsToSelf(View());
      threw := false;
      if IsCurrent(id) {
        threw := FailAndClose();
      }
    }

    /** `send`: throws unless connected; a transport that throws ends the connection. */
    method Send() returns (threw: bool)
      requires Valid()
      modifies this
      ensures Onward() && (!old(lifecycle).Connected? ==> threw && View() == old(View()))
      decreases |tape|, 6
    {
      hide State.Consistent, State.LeadsTo, State.Phase, FatesExplained, OpsIn, Connection.Answered,
           Connection.Concerns;
      LeadsToSelf(View());
      threw := true;
      if lifecycle.Connected? {
        threw := CallBack(Otherwise);
        if threw {
          ghost var before := View();
          threw := FailAndClose();
          LeadsToTrans(old(View()), before, View());
        }
      }
    }

    /** The transport closed by itself: whatever it is for, it is not closed again. */
    method HandleClose(id: nat) returns (threw: bool)
      requires Valid()
      modifies this
      ensures Onward() && (Polite(old(tape)) ==> !threw)
      ensures if old(IsCurrent(id)) then Ended() else View() == old(View())
      ensures old(IsCurrent(id)) && old(Transport()).Some? ==>
        old(Transport()).value < |fates| && fates[old(Transport()).value] == SelfClosed
      decreases |tape|, 6
    {
      hide State.Consistent, State.LeadsTo, State.Phase, FatesExplained, OpsIn, Connection.Answered,
           Connection.Concerns;
      LeadsToSelf(View());
      threw := false;
      if IsCurrent(id) {
        threw := FailWithoutClose();
      }
    }

    method FailWithoutClose() returns (threw: bool)
      requires Valid() && !lifecycle.Disconnected?
      modifies this
      ensures Onward() && (Polite(old(tape)) ==> !threw)
      ensures old(Transport()).Some? ==>
        old(Transport()).value < |fates| && fates[old(Transport()).value] == SelfClosed
      ensures Ended()
      decreases |tape|, 3
    {
      DroppedKeeps(View(), SelfClosed);
      ghost var dropped := View().Dropped(SelfClosed);
      KeptFate(View(), SelfClosed);
      hide State.Consistent, State.LeadsTo, State.Phase, State.Dropped, FatesExplained, OpsIn, Connection.Answered,
           Connection.Concerns;
      threw := DropTo(SelfClosed);
      LeadsToTrans(old(View()), dropped, View());
      KeepsFates(dropped, View());
    }

    /** `#fail`: the lifecycle ends, its handshake is rejected, and the client is told. */
    method DropTo(fate: Fate) returns (threw: bool)
      requires Valid() && !lifecycle.Disconnected? && fate in {Closing, SelfClosed}
      modifies this
      ensures Valid() && old(View()).Dropped(fate).LeadsTo(View()) && |tape| <= |old(tape)| && old(sequence) <= sequence
      ensures forall id | id in asked && id <= old(sequence) :: id in old(asked)
      ensures Polite(old(tape)) ==> Polite(tape) && (NoLeaks(old(fates)) ==> NoLeaks(fates))
      ensures old(log) <= log && Concerns() == old(Concerns())
      ensures fate == Closing && old(Transport()).Some? ==> Call(BeforeClose(old(Transport()).value), threw) in log
      ensures Ended() && (threw <==> old(NextThrows()))
      decreases |tape|, 2
    {
      hide State.Consistent, State.LeadsTo, State.Phase, State.Dropped, NoLeaks, FatesExplained, OpsIn,
           Connection.Answered, Connection.Concerns;
      DroppedExplained(View(), fate, log);
      DroppedKeeps(View(), fate);
      ghost var dropped := View().Dropped(fate);
      ghost var reason := if fate == Closing && Transport().Some? then BeforeClose(Transport().value) else Otherwise;
      lifecycle := Disconnected;
      Account(dropped);
      threw := CallBack(reason);
      assert (old(log) + [Call(reason, threw)])[|old(log)|] == Call(reason, threw);
      KeepsOf(dropped, View());
      DroppedSettles(old(View()), fate, View());
    }

    /**
      `#failAndClose`. When the client's reaction to the disconnection throws, the close that should
      follow is never reached and the transport is leaked; otherwise the transport has been closed.
     */
    method FailAndClose() returns (threw: bool)
      requires Valid()
      modifies this
      ensures Onward() && (Polite(old(tape)) ==> !threw)
      ensures if old(lifecycle).Disconnected? then View() == old(View()) else Ended()
      ensures old(Transport()).Some? ==>
        && old(Transport()).value < |fates|
        && fates[old(Transport()).value] == if old(NextThrows()) then Leaked else ClosedByUs
      decreases |tape|, 5
    {
      hide State.Consistent, State.LeadsTo, State.Phase, FatesExplained, OpsIn, Connection.Answered,
           Connection.Concerns;
      LeadsToSelf(View());
      threw := false;
      if !lifecycle.Disconnected? {
        if Transport().None? {
          threw := FailWithoutClose();
        } else {
          threw := DropAndClose();
        }
      }
    }

    /** The transport is closed if and only if the client's reaction to the disconnection does not throw. */
    method DropAndClose() returns (threw: bool)
      requires Valid() && Transport().Some?
      modifies this
      ensures Onward() && (Polite(old(tape)) ==> !threw)
      ensures old(Transport()).value < |fates|
      ensures fates[old(Transport()).value] == if old(NextThrows()) then Leaked else ClosedByUs
      ensures Ended() && (old(NextThrows()) ==> threw)
      decreases |tape|, 4
    {
      hide State.Consistent, State.LeadsTo, State.Phase, State.HoldsHandshake, NoLeaks, FatesExplained, OpsIn,
           Connection.Answered, Connection.Concerns;
      threw := DropOrLeak();
      if !threw {
        ghost var released := View();
        threw := CallBack(Otherwise);
        LeadsToTrans(old(View()), released, View());
        KeepsFates(released, View());
        KeepsSettled(released, View());
      }
    }

    /** Up to the close, which either follows at once or never. */
    method DropOrLeak() returns (threw: bool)
      requires Valid() && Transport().Some?
      modifies this
      ensures Onward() && (threw <==> old(NextThrows())) && (Polite(old(tape)) ==> !threw)
      ensures old(Transport()).value < |fates|
      ensures fates[old(Transport()).value] == if threw then Leaked else ClosedByUs
      ensures Ended()
      decreases |tape|, 3
    {
      hide State.Consistent, State.LeadsTo, State.Phase, State.Dropped, State.HoldsHandshake, FatesExplained, OpsIn,
           Connection.Answered, Connection.Concerns, NoLeaks;
      ghost var t := Transport().value;
      threw := DropTo(Closing);
      ghost var fate := if threw then Leaked else ClosedByUs;
      ClosedKeeps(old(View()), View(), fate);
      FateDecided(log, fates, t, threw);
      if !threw {
        LeakOnly(fates, t, fate);
      }
      Account(View().Released(t, fate));
    }

    /** Bytes of a transport, already decoded; data of an earlier attempt is ignored. */
    method HandleData(id: nat, decoded: Option<seq<ServerMessage>>) returns (threw: bool)
      requires Valid()
      modifies this
      ensures Onward() && (Polite(old(tape)) ==> !threw)
      ensures !old(IsCurrent(id)) ==> View() == old(View())
      ensures old(IsCurrent(id)) && (decoded.None? || (old(lifecycle).Connecting? && old(Transport()).None?)) ==>
        Ended()
      decreases |tape|, 8
    {
      hide State.Consistent, State.LeadsTo, State.Phase, FatesExplained, OpsIn, Connection.Answered,
           Connection.Concerns;
      LeadsToSelf(View());
      threw := false;
      if !IsCurrent(id) {
        return;
      }
      if (lifecycle.Connecting? && lifecycle.pending.None?) || decoded.None? {
        threw := FailAndClose();
        return;
      }
      for i := 0 to |decoded.value|
        invariant Onward() && (Polite(old(tape)) ==> !threw)
      {
        if !IsCurrent(id) {
          return;
        }
        ghost var before := View();
        threw := HandleMessage(id, decoded.value[i]);
        LeadsToTrans(old(View()), before, View());
        if threw {
          return;
        }
      }
    }

    /** One message of the current attempt: the handshake first, then everything else. */
    method HandleMessage(ghost source: nat, message: ServerMessage) returns (threw: bool)
      requires Valid() && IsCurrent(source)
      modifies this
      ensures Onward() && (Polite(old(tape)) ==> !threw)
      ensures (if old(lifecycle).Connecting? then message != Hello else !message.Other?) ==> Ended()
      ensures old(lifecycle).Connected? && message.Other? ==>
        old(deliveries) + [Delivery(source, source, message)] <= deliveries
      decreases |tape|, 7
    {
      hide State.Consistent, State.LeadsTo, State.Phase, FatesExplained, OpsIn, Connection.Answered,
           Connection.Concerns;
      if lifecycle.Connecting? {
        if message != Hello || lifecycle.pending.None? {
          threw := FailAndClose();
        } else {
          threw := Handshake();
        }
      } else if message == Hello || message == HelloError {
        threw := FailAndClose();
      } else {
        DeliveredKeeps(View(), source, message);
        ghost var delivered := View().Delivered(source, message);
        Account(delivered);
        threw := CallBack(Otherwise);
        LeadsToTrans(old(View()), delivered, View());
        KeepsOf(delivered, View());
      }
    }

    /**
      The server's hello. The lifecycle is compared after every callback: an attempt becomes connected
      only once, so equal lifecycles are the same one.
     */
    method Handshake() returns (threw: bool)
      requires Valid() && lifecycle.Connecting? && lifecycle.pending.Some?
      modifies this
      ensures Onward() && (Polite(old(tape)) ==> !threw)
      ensures !threw && IsCurrent(old(lifecycle.id)) ==> View().Phase() == 4
      decreases |tape|, 6
    {
      hide State.Consistent, State.LeadsTo, State.Phase, FatesExplained, OpsIn, Connection.Answered,
           Connection.Concerns;
      GreetedKeeps(View());
      ghost var greeted := View().Greeted();
      var connected := Connected(lifecycle.id, lifecycle.pending.value, true);
      lifecycle := connected;
      Account(greeted);
      threw := CallBack(Otherwise);
      LeadsToTrans(old(View()), greeted, View());
      if threw {
        StillConnected(greeted, View());
        threw := false;
        if lifecycle == connected {
          ghost var before := View();
          CurrentIsLast(before);
          threw := FailAndClose();
          LeadsToTrans(old(View()), before, View());
          SettledIsPast(View(), connected.id);
        }
        return;
      }
      StillConnected(greeted, View());
      if lifecycle == connected {
        SameStep(greeted, View());
        ghost var before := View();
        threw := Announce(connected);
        AcrossHandshake(old(View()), before, View());
      }
    }

    /** Tell the client, and settle the handshake if the connection is still the same. */
    method Announce(connected: Lifecycle) returns (threw: bool)
      requires Valid() && lifecycle == connected && connected.Connected? && View().Phase() == 2
      modifies this
      ensures old(log) <= log && Concerns() == old(Concerns())
      ensures Valid() && |tape| <= |old(tape)| && old(View()).Keeps(View()) && old(sequence) <= sequence
      ensures View().sequence > old(View()).sequence || (View().sequence == old(View()).sequence && View().Phase() >= 2)
      ensures !threw && IsCurrent(connected.id) ==> View().Phase() == 4
      ensures forall id | id in asked && id <= old(sequence) :: id in old(asked)
      ensures Polite(old(tape)) ==> Polite(tape) && !threw && (NoLeaks(old(fates)) ==> NoLeaks(fates))
      decreases |tape|, 4
    {
      AnnouncedKeeps(View());
      ghost var announced := View().Announced();
      hide State.Consistent, State.Phase, State.Keeps, FatesExplained, OpsIn, Connection.Answered,
           Connection.Concerns;
      Account(announced);
      threw := CallBack(Otherwise);
      KeepsTrans(old(View()), announced, View());
      StillConnected(announced, View());
      if !threw && lifecycle == connected {
        SameStep(announced, View());
        ghost var before := View();
        CompletedKeeps(before);
        ghost var completed := before.Completed();
        lifecycle := Connected(lifecycle.id, lifecycle.transport, false);
        Account(completed);
        KeepsTrans(old(View()), before, View());
      }
    }
  }

  /** Dropping a lifecycle explains the fate of its transport, and no call has been made to close it. */
  lemma DroppedExplained(s: State, fate: Fate, log: seq<Call>)
    requires s.Consistent() && !s.lifecycle.Disconnected? && fate in {Closing, SelfClosed}
    requires FatesExplained(log, s.fates)
    ensures |s.outcomes| == s.sequence > 0 && (s.Transport().Some? ==> s.Transport().value < |s.fates|)
    ensures var d := s.Dropped(fate);
      d.lifecycle == Disconnected && d.sequence == s.sequence && |d.fates| == |s.fates| && d.deliveries == s.deliveries
    ensures NoLeaks(s.fates) ==> NoLeaks(s.Dropped(fate).fates)
    ensures FatesExplained(log, s.Dropped(fate).fates)
    ensures s.Transport().Some? ==>
      && s.Transport().value < |s.Dropped(fate).fates| && s.Dropped(fate).fates[s.Transport().value] == fate
      && forall c | c in log :: c.reason != BeforeClose(s.Transport().value)
  {
    FatesMove(log, s.fates, s.Dropped(fate).fates);
    if s.Transport().Some? {
      HeldNotCalled(log, s.fates, s.Transport().value);
    }
    hide FatesExplained;
  }

  lemma LeakOnly(fates: seq<Fate>, t: nat, fate: Fate)
    requires t < |fates| && fate != Leaked
    ensures NoLeaks(fates) ==> NoLeaks(fates[t := fate])
  {
  }

  lemma OneMoreOp(start: multiset<Op>, before: multiset<Op>, after: multiset<Op>, ops: seq<Op>, i: nat)
    requires i < |ops| && before == start + multiset(ops[..i]) && after == before + multiset{ops[i]}
    ensures after == start + multiset(ops[..i + 1])
  {
    assert ops[..i + 1] == ops[..i] + [ops[i]];
  }

  lemma OpsOfFirst(tape: seq<Callback>)
    requires tape != []
    ensures OpsIn(tape) == multiset(tape[0].ops) + OpsIn(tape[1..])
  {
  }

  /** Equal lifecycles past the handshake mean that nothing has moved. */
  lemma SameStep(a: State, b: State)
    requires a.LeadsTo(b) && a.Phase() >= 2 && a.lifecycle.Connected? && b.lifecycle == a.lifecycle
    requires a.Consistent() && b.Consistent()
    ensures b.Phase() == a.Phase()
  {
    hide StageOf;
  }

  lemma CurrentIsLast(s: State)
    requires s.Consistent() && !s.lifecycle.Disconnected?
    ensures s.lifecycle.id == s.sequence
  {
    hide StageOf;
  }

  lemma SettledIsPast(s: State, id: nat)
    requires s.Consistent() && 0 < id <= |s.outcomes| && s.outcomes[id - 1] != Unsettled
    ensures s.IsCurrent(id) ==> s.Phase() == 4
  {
    hide StageOf;
  }

  /** Past the handshake the attempt that is current is still in the same lifecycle. */
  lemma StillConnected(a: State, b: State)
    requires a.LeadsTo(b) && a.Consistent() && b.Consistent() && a.Phase() >= 2 && a.lifecycle.Connected?
    ensures b.IsCurrent(a.lifecycle.id) ==> b.lifecycle == a.lifecycle
  {
    hide StageOf;
  }

  lemma AcrossHandshake(a: State, b: State, c: State)
    requires a.LeadsTo(b) && b.Keeps(c) && a.Phase() < 2
    requires c.sequence > b.sequence || (c.sequence == b.sequence && c.Phase() >= 2)
    ensures a.LeadsTo(c)
  {
    KeepsTrans(a, b, c);
    hide StageOf, State.Keeps;
  }

  lemma DroppedSettles(a: State, fate: Fate, b: State)
    requires a.Consistent() && !a.lifecycle.Disconnected? && fate != Held && a.Dropped(fate).Keeps(b)
    ensures a.notes + [NoteDisconnected] <= b.notes && 0 < a.sequence <= |b.outcomes|
    ensures b.outcomes[a.sequence - 1] == if a.HoldsHandshake() then Rejected else Resolved
  {
    hide StageOf;
    var dropped := a.Dropped(fate);
    assert dropped.outcomes[a.sequence - 1] != Unsettled;
  }

  lemma KeptFate(s: State, fate: Fate)
    requires s.Consistent() && !s.lifecycle.Disconnected? && fate != Held
    ensures s.Transport().Some? ==>
      s.Transport().value < |s.Dropped(fate).fates| && s.Dropped(fate).fates[s.Transport().value] == fate
  {
  }

  lemma KeepsOf(a: State, b: State)
    requires a.LeadsTo(b)
    ensures a.Keeps(b)
  {
  }

  lemma KeepsSettled(a: State, b: State)
    requires a.LeadsTo(b)
    ensures a.notes <= b.notes
    ensures forall i | 0 <= i < |a.outcomes| && a.outcomes[i] != Unsettled ::
        i < |b.outcomes| && b.outcomes[i] == a.outcomes[i]
  {
  }

  lemma KeepsFates(a: State, b: State)
    requires a.LeadsTo(b)
    ensures |a.fates| <= |b.fates| && forall t | 0 <= t < |a.fates| && a.fates[t] != Held :: b.fates[t] == a.fates[t]
  {
  }

  /**
    Whatever the client, the transports and their promises do, in any order and however deeply nested,
    once the stack is empty: all of it has been performed; every handshake is settled unless the current
    lifecycle holds it; every transport is the current one, closed by itself, or closed by us unless the
    client threw when it was told so; the client was told (connecting connected? disconnected)*; and no
    message of an earlier attempt reached it.
   */
  method Run(tape: seq<Callback>, ops: seq<Op>) returns (c: Connection)
    ensures fresh(c) && Accounted(c.View()) && LeaksExplained(c.log, c.fates)
    ensures c.script == tape && c.Answered() && c.done + OpsIn(c.tape) == OpsIn(tape) + multiset(ops)
    ensures Polite(tape) ==> NoLeaks(c.fates)
  {
    hide OpsIn, FatesExplained, State.Consistent, State.LeadsTo, Connection.Answered, Connection.Concerns, NoLeaks,
         Polite, LeaksExplained, Accounted;
    c := new Connection(tape);
    LeadsToSelf(INITIAL);
    NothingConcerns(c);
    assert ops[..0] == [];
    for i := 0 to |ops|
      invariant c.Valid() && INITIAL.LeadsTo(c.View()) && fresh(c) && c.script == tape
      invariant c.Concerns() == OpsIn(tape) + multiset(ops[..i])
      invariant Polite(tape) ==> Polite(c.tape) && NoLeaks(c.fates)
    {
      ghost var before, earlier := c.View(), c.Concerns();
      var _ := c.Perform(ops[i]);
      LeadsToTrans(INITIAL, before, c.View());
      OneMoreOp(OpsIn(tape), earlier, c.Concerns(), ops, i);
    }
    assert ops[..|ops|] == ops;
    Quiescent(c.View());
    LeaksAreExplained(c.log, c.View());
    ConcernsAre(c);
  }

  lemma NothingConcerns(c: Connection)
    requires c.done == multiset{} && c.fates == []
    ensures c.Concerns() == OpsIn(c.tape) + multiset([]) && NoLeaks(c.fates)
  {
  }

  lemma ConcernsAre(c: Connection)
    requires c.Valid()
    ensures c.Answered() && c.Concerns() == c.done + OpsIn(c.tape)
  {
  }

  /** A transport was leaked exactly if user code threw when told of the disconnection that was to close it. */
  ghost predicate LeaksExplained(log: seq<Call>, fates: seq<Fate>) {
    && (forall t | 0 <= t < |fates| :: fates[t] == Leaked <==> Call(BeforeClose(t), true) in log)
    && (forall t | 0 <= t < |fates| :: Call(BeforeClose(t), false) in log ==> fates[t] == ClosedByUs)
  }

  lemma LeaksAreExplained(log: seq<Call>, s: State)
    requires FatesExplained(log, s.fates) && INITIAL.LeadsTo(s) && s.Consistent()
    ensures LeaksExplained(log, s.fates)
  {
    forall t, threw | 0 <= t < |s.fates| && Call(BeforeClose(t), threw) in log
      ensures s.fates[t] == if threw then Leaked else ClosedByUs
    {
      var i :| 0 <= i < |log| && log[i] == Call(BeforeClose(t), threw);
      assert s.fates[t] != Closing;
    }
  }

  ghost predicate Accounted(s: State) {
    && |s.outcomes| == s.sequence
    && (forall i | 0 <= i < s.sequence :: s.outcomes[i] == Unsettled <==> s.IsCurrent(i + 1) && s.HoldsHandshake())
    && (forall t | 0 <= t < |s.fates| ::
        if s.Transport() == Some(t) then s.fates[t] == Held else s.fates[t] in {ClosedByUs, SelfClosed, Leaked})
    && Pattern(s.notes)
    && (forall d | d in s.deliveries :: d.source == d.current)
  }

  lemma Quiescent(s: State)
    requires INITIAL.LeadsTo(s) && s.Consistent()
    ensures Accounted(s)
  {
    StageIsPattern(s.notes);
    hide StageOf, Pattern;
  }

  /**
    A client whose listener throws when it is told of the disconnection: the transport it asked for is
    never closed. Its callbacks are told `connecting`, make the factory ask for a transport, send the
    hello, and are told `disconnected`.
   */
  method LeakingRun() returns (c: Connection)
    ensures c.Valid() && |c.fates| > 0 && c.fates[0] == Leaked
  {
    hide State.Consistent, State.LeadsTo, State.Phase, FatesExplained, OpsIn, Connection.Answered, Connection.Concerns,
         NoLeaks, Polite;
    var quiet, throwing := Callback([], false), Callback([], true);
    c := new Connection([quiet, quiet, quiet, throwing]);
    var _ := c.Connect();
    var _ := c.FactoryResolved(1);
    var _ := c.FailAndClose();
  }
}
