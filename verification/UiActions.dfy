/**
  UI actions, the reducer that gives them meaning, and their coalescing
  (packages/grok-tui/src/actions.ts, packages/grok-tui/src/reducer.ts, packages/grok-tui/src/state.ts).
 */
module UiActions {
  import opened Wrappers

  datatype Dimensions = Dimensions(columns: real, rows: real)

  datatype Action =
    | Started(dimensions: Dimensions)
    | Stopped
    | Resized(dimensions: Dimensions)
    | Input(data: string)
    | Invalidated(components: bool, force: bool)

  datatype Effect = DeliverInput(data: string) | DeliverResize | InvalidateComponents | Render(force: bool)

  predicate IsLifecycle(a: Action) {
    a.Started? || a.Stopped?
  }

  // ------------------------------------------------------------------ the reducer

  datatype Size = Size(columns: int, rows: int)

  datatype UiState = UiState(
    running: bool, size: Size, revision: nat, resizeSequence: nat, inputSequence: nat, invalidationSequence: nat)

  /** `Math.trunc`. */
  function Trunc(x: real): int {
    if x >= 0.0 then x.Floor else -((-x).Floor)
  }

  function Normalize(d: Dimensions): Size {
    Size(if Trunc(d.columns) > 1 then Trunc(d.columns) else 1, if Trunc(d.rows) > 1 then Trunc(d.rows) else 1)
  }

  function InitialState(d: Dimensions): UiState {
    UiState(false, Normalize(d), 0, 0, 0, 0)
  }

  datatype Transition = Transition(state: UiState, effects: seq<Effect>)

  function Reduce(s: UiState, a: Action): Transition {
    match a
    case Started(d) =>
      if s.running then Transition(s, [])
      else Transition(s.(running := true, size := Normalize(d), revision := s.revision + 1), [Render(true)])
    case Stopped =>
      if !s.running then Transition(s, []) else Transition(s.(running := false, revision := s.revision + 1), [])
    case Resized(d) =>
      if !s.running || Normalize(d) == s.size then Transition(s, [])
      else Transition(s.(size := Normalize(d), revision := s.revision + 1, resizeSequence := s.resizeSequence + 1),
          [DeliverResize])
    case Input(data) =>
      if !s.running then Transition(s, [])
      else Transition(s.(revision := s.revision + 1, inputSequence := s.inputSequence + 1), [DeliverInput(data)])
    case Invalidated(components, force) =>
      Transition(
        s.(revision := s.revision + 1, invalidationSequence := s.invalidationSequence + 1),
        (if components then [InvalidateComponents] else []) + (if s.running then [Render(force)] else []))
  }

  function Run(s: UiState, actions: seq<Action>): Transition {
    if actions == [] then Transition(s, []) else
      var front := Run(s, actions[..|actions| - 1]);
      var last := Reduce(front.state, actions[|actions| - 1]);
      Transition(last.state, front.effects + last.effects)
  }

  /** The inputs among effects, in order. */
  function Inputs(effects: seq<Effect>): seq<string> {
    if effects == [] then [] else
      var last := effects[|effects| - 1];
      Inputs(effects[..|effects| - 1]) + if last.DeliverInput? then [last.data] else []
  }

  lemma {:induction false} InputsAppend(a: seq<Effect>, b: seq<Effect>)
    ensures Inputs(a + b) == Inputs(a) + Inputs(b)
  {
    if b == [] {
      assert a + b == a;
    } else {
      InputsAppend(a, b[..|b| - 1]);
      assert (a + b)[..|a + b| - 1] == a + b[..|b| - 1];
    }
  }

  lemma {:induction false} RunAppend(s: UiState, a: seq<Action>, b: seq<Action>)
    ensures Run(s, a + b).state == Run(Run(s, a).state, b).state
    ensures Run(s, a + b).effects == Run(s, a).effects + Run(Run(s, a).state, b).effects
  {
    hide Reduce;
    if b == [] {
      assert a + b == a;
    } else {
      var n := |b| - 1;
      RunAppend(s, a, b[..n]);
      assert (a + b)[..|a + b| - 1] == a + b[..n] && (a + b)[|a + b| - 1] == b[n];
    }
  }

  // ------------------------------------------------------------------ what must not change

  /** The part of a run that coalescing preserves: lifecycle, size, input count and the inputs delivered. */
  datatype Meaning = Meaning(running: bool, size: Size, inputSequence: nat, inputs: seq<string>)

  function MeaningOf(s: UiState, actions: seq<Action>): Meaning {
    var t := Run(s, actions);
    Meaning(t.state.running, t.state.size, t.state.inputSequence, Inputs(t.effects))
  }

  /** Meaning is compositional. */
  function Then(m: Meaning, a: Action): Meaning {
    match a
    case Started(d) => if m.running then m else m.(running := true, size := Normalize(d))
    case Stopped => m.(running := false)
    case Resized(d) => if m.running then m.(size := Normalize(d)) else m
    case Input(data) => if m.running then m.(inputSequence := m.inputSequence + 1, inputs := m.inputs + [data]) else m
    case Invalidated(_, _) => m
  }

  lemma MeaningExtends(s: UiState, actions: seq<Action>, a: Action)
    ensures MeaningOf(s, actions + [a]) == Then(MeaningOf(s, actions), a)
  {
    assert (actions + [a])[..|actions|] == actions;
    var front := Run(s, actions);
    var last := Reduce(front.state, a);
    InputsAppend(front.effects, last.effects);
    ReduceInputs(front.state, a);
    assert Run(s, actions + [a]) == Transition(last.state, front.effects + last.effects);
    hide Run, Inputs;
    assert Inputs(front.effects) + [] == Inputs(front.effects);
  }

  lemma ReduceInputs(s: UiState, a: Action)
    ensures Inputs(Reduce(s, a).effects) == if a.Input? && s.running then [a.data] else []
  {
    InputsOfOne(Reduce(s, a).effects);
    hide Inputs;
  }

  lemma InputsOfOne(effects: seq<Effect>)
    ensures |effects| == 0 ==> Inputs(effects) == []
    ensures |effects| == 1 ==> Inputs(effects) == if effects[0].DeliverInput? then [effects[0].data] else []
    ensures |effects| == 2 && !effects[0].DeliverInput? && !effects[1].DeliverInput? ==> Inputs(effects) == []
  {
    if |effects| == 2 {
      assert effects[..1] == [effects[0]] && effects[..1][..0] == [];
    }
    if |effects| == 1 {
      assert effects[..0] == [];
    }
  }

  // ------------------------------------------------------------------ what a stretch of actions amounts to

  /** Actions between two lifecycle boundaries: the last resize, the inputs in order, the OR of the invalidations. */
  datatype Summary = Summary(resize: Option<Dimensions>, inputs: seq<string>, invalidated: bool, components: bool,
      force: bool)

  const NOTHING: Summary := Summary(None, [], false, false, false)

  function Add(s: Summary, a: Action): Summary {
    match a
    case Resized(d) => s.(resize := Some(d))
    case Input(data) => s.(inputs := s.inputs + [data])
    case Invalidated(components, force) =>
      s.(invalidated := true, components := s.components || components, force := s.force || force)
    case _ => s
  }

  datatype Closed = Closed(summary: Summary, boundary: Action)

  /** The closed stretches with the boundaries that end them, and the open one. */
  datatype Digest = Digest(closed: seq<Closed>, current: Summary)

  function Extend(d: Digest, a: Action): Digest {
    if IsLifecycle(a) then Digest(d.closed + [Closed(d.current, a)], NOTHING) else d.(current := Add(d.current, a))
  }

  function DigestOf(actions: seq<Action>): Digest {
    if actions == [] then Digest([], NOTHING) else Extend(DigestOf(actions[..|actions| - 1]), actions[|actions| - 1])
  }

  lemma DigestExtends(actions: seq<Action>, a: Action)
    ensures DigestOf(actions + [a]) == Extend(DigestOf(actions), a)
  {
    assert (actions + [a])[..|actions|] == actions;
  }

  // ------------------------------------------------------------------ coalescing

  /** The result so far, cut where the current lifecycle segment starts. */
  datatype Buffer = Buffer(sealed: seq<Action>, segment: seq<Action>) {
    function Flat(): seq<Action> {
      sealed + segment
    }
  }

  function WithoutResizes(segment: seq<Action>): seq<Action> {
    if segment == [] then [] else
      var last := segment[|segment| - 1];
      var front := WithoutResizes(segment[..|segment| - 1]);
      if last.Resized? then front else front + [last]
  }

  function WithoutInvalidations(segment: seq<Action>): seq<Action> {
    if segment == [] then [] else
      var last := segment[|segment| - 1];
      var front := WithoutInvalidations(segment[..|segment| - 1]);
      if last.Invalidated? then front else front + [last]
  }

  /** An invalidation joined with those pending in the segment. */
  function Joined(segment: seq<Action>, a: Action): (r: Action)
    requires a.Invalidated?
    ensures r.Invalidated?
  {
    Invalidated(a.components || exists i :: 0 <= i < |segment| && segment[i].Invalidated? && segment[i].components,
                a.force || exists i :: 0 <= i < |segment| && segment[i].Invalidated? && segment[i].force)
  }

  function Push(b: Buffer, a: Action): Buffer {
    match a
    case Resized(_) => b.(segment := WithoutResizes(b.segment) + [a])
    case Invalidated(_, _) => b.(segment := WithoutInvalidations(b.segment) + [Joined(b.segment, a)])
    case Input(_) => b.(segment := b.segment + [a])
    case _ => Buffer(b.sealed + b.segment + [a], [])
  }

  function Batch(actions: seq<Action>): Buffer {
    if actions == [] then Buffer([], []) else Push(Batch(actions[..|actions| - 1]), actions[|actions| - 1])
  }

  function Coalesce(actions: seq<Action>): seq<Action> {
    Batch(actions).Flat()
  }

  lemma BatchExtends(actions: seq<Action>, a: Action)
    ensures Batch(actions + [a]) == Push(Batch(actions), a)
  {
    assert (actions + [a])[..|actions|] == actions;
  }

  ghost predicate NoResize(segment: seq<Action>) {
    forall i | 0 <= i < |segment| :: !segment[i].Resized?
  }

  ghost predicate NoInvalidation(segment: seq<Action>) {
    forall i | 0 <= i < |segment| :: !segment[i].Invalidated?
  }

  /** A finished segment: no boundary inside, at most one resize and at most one invalidation. */
  ghost predicate Tidy(segment: seq<Action>) {
    segment == [] ||
    var front, last := segment[..|segment| - 1], segment[|segment| - 1];
    && Tidy(front) && !IsLifecycle(last)
    && (last.Resized? ==> NoResize(front)) && (last.Invalidated? ==> NoInvalidation(front))
  }

  lemma {:induction false} TidyMeans(segment: seq<Action>)
    requires Tidy(segment)
    ensures forall i | 0 <= i < |segment| :: !IsLifecycle(segment[i])
    ensures forall i, j | 0 <= i < j < |segment| :: !(segment[i].Resized? && segment[j].Resized?)
    ensures forall i, j | 0 <= i < j < |segment| :: !(segment[i].Invalidated? && segment[j].Invalidated?)
  {
    if segment != [] {
      TidyMeans(segment[..|segment| - 1]);
    }
  }

  lemma {:induction false} WithoutResizesIs(segment: seq<Action>)
    ensures NoResize(WithoutResizes(segment)) && (Tidy(segment) ==> Tidy(WithoutResizes(segment)))
    ensures NoInvalidation(segment) ==> NoInvalidation(WithoutResizes(segment))
    ensures NoResize(segment) ==> WithoutResizes(segment) == segment
  {
    if segment != [] {
      WithoutResizesIs(segment[..|segment| - 1]);
    }
  }

  lemma {:induction false} WithoutInvalidationsIs(segment: seq<Action>)
    ensures NoInvalidation(WithoutInvalidations(segment)) && (Tidy(segment) ==> Tidy(WithoutInvalidations(segment)))
    ensures NoResize(segment) ==> NoResize(WithoutInvalidations(segment))
    ensures NoInvalidation(segment) ==> WithoutInvalidations(segment) == segment
  {
    if segment != [] {
      WithoutInvalidationsIs(segment[..|segment| - 1]);
    }
  }

  // ------------------------------------------------------------------ incremental coalescing

  lemma {:induction false} BatchIsTidy(actions: seq<Action>)
    ensures Tidy(Batch(actions).segment)
  {
    if actions != [] {
      var front := Batch(actions[..|actions| - 1]);
      BatchIsTidy(actions[..|actions| - 1]);
      PushKeepsTidy(front, actions[|actions| - 1]);
    }
  }

  lemma PushKeepsTidy(b: Buffer, a: Action)
    requires Tidy(b.segment)
    ensures Tidy(Push(b, a).segment)
  {
    WithoutResizesIs(b.segment);
    WithoutInvalidationsIs(b.segment);
    hide WithoutResizes, WithoutInvalidations;
    var after := Push(b, a).segment;
    assert after != [] ==> after[..|after| - 1] + [after[|after| - 1]] == after;
    if !IsLifecycle(a) {
      var front := if a.Resized? then WithoutResizes(b.segment)
          else if a.Invalidated? then WithoutInvalidations(b.segment) else b.segment;
      assert after[..|after| - 1] == front;
    }
  }

  /** A tidy segment behind sealed actions is coalesced to itself. */
  lemma {:induction false} TidySegmentStays(sealed: seq<Action>, segment: seq<Action>)
    requires Batch(sealed) == Buffer(sealed, []) && Tidy(segment)
    ensures Batch(sealed + segment) == Buffer(sealed, segment)
  {
    hide Batch, Push;
    if segment == [] {
      assert sealed + segment == sealed;
    } else {
      var n := |segment| - 1;
      var front, last := segment[..n], segment[n];
      TidySegmentStays(sealed, front);
      PushOnTidy(sealed, front, last);
      hide Tidy;
      BatchExtends(sealed + front, last);
      assert sealed + segment == (sealed + front) + [last] && front + [last] == segment;
    }
  }

  lemma PushOnTidy(sealed: seq<Action>, front: seq<Action>, last: Action)
    requires !IsLifecycle(last)
    requires (last.Resized? ==> NoResize(front)) && (last.Invalidated? ==> NoInvalidation(front))
    ensures Push(Buffer(sealed, front), last) == Buffer(sealed, front + [last])
  {
    WithoutResizesIs(front);
    WithoutInvalidationsIs(front);
    hide WithoutResizes, WithoutInvalidations, Tidy;
    if last.Invalidated? {
      assert Joined(front, last) == last;
    }
  }

  /** Coalescing what has been coalesced changes nothing. */
  lemma {:induction false} Idempotent(actions: seq<Action>)
    ensures Batch(Coalesce(actions)) == Batch(actions)
    ensures Batch(Batch(actions).sealed) == Buffer(Batch(actions).sealed, [])
  {
    if actions != [] {
      var n := |actions| - 1;
      var b, a := Batch(actions[..n]), actions[n];
      Idempotent(actions[..n]);
      if IsLifecycle(a) {
        BatchExtends(b.Flat(), a);
        assert Batch(actions).Flat() == b.Flat() + [a] && Batch(actions).sealed == b.Flat() + [a];
      } else {
        BatchIsTidy(actions);
        TidySegmentStays(b.sealed, Batch(actions).segment);
      }
    }
  }

  /** Coalescing each action as it is dispatched is the same as coalescing them all at once. */
  lemma IncrementalIsBatch(actions: seq<Action>, a: Action)
    ensures Coalesce(Coalesce(actions) + [a]) == Coalesce(actions + [a])
  {
    Idempotent(actions);
    BatchExtends(Coalesce(actions), a);
    BatchExtends(actions, a);
    hide Batch, Push;
  }

  /** The actions behind the last boundary. */
  ghost function OpenSegment(actions: seq<Action>): seq<Action> {
    if actions == [] || IsLifecycle(actions[|actions| - 1]) then [] else
      OpenSegment(actions[..|actions| - 1]) + [actions[|actions| - 1]]
  }

  /** At most one resize and one invalidation in every lifecycle segment. */
  ghost predicate Compact(actions: seq<Action>) {
    actions == [] || (Compact(actions[..|actions| - 1]) && Tidy(OpenSegment(actions)))
  }

  lemma {:induction false} SegmentStaysCompact(sealed: seq<Action>, segment: seq<Action>)
    requires Compact(sealed) && OpenSegment(sealed) == [] && Tidy(segment)
    ensures Compact(sealed + segment) && OpenSegment(sealed + segment) == segment
  {
    if segment == [] {
      assert sealed + segment == sealed;
    } else {
      var n := |segment| - 1;
      SegmentStaysCompact(sealed, segment[..n]);
      assert (sealed + segment)[..|sealed + segment| - 1] == sealed + segment[..n];
      assert (sealed + segment)[|sealed + segment| - 1] == segment[n] && segment == segment[..n] + [segment[n]];
    }
  }

  lemma {:induction false} CoalescedIsCompact(actions: seq<Action>)
    ensures Compact(Coalesce(actions))
    ensures Compact(Batch(actions).sealed) && OpenSegment(Batch(actions).sealed) == []
  {
    if actions != [] {
      var n := |actions| - 1;
      var b, a := Batch(actions[..n]), actions[n];
      CoalescedIsCompact(actions[..n]);
      BatchIsTidy(actions);
      if IsLifecycle(a) {
        assert Batch(actions).sealed == b.Flat() + [a] && (b.Flat() + [a])[..|b.Flat()|] == b.Flat();
      } else {
        PushKeepsSum(b, a);
      }
      hide Push, Batch, Tidy;
      SegmentStaysCompact(Batch(actions).sealed, Batch(actions).segment);
    }
  }

  // ------------------------------------------------------------------ summaries are kept

  function Sum(segment: seq<Action>): Summary {
    if segment == [] then NOTHING else Add(Sum(segment[..|segment| - 1]), segment[|segment| - 1])
  }

  lemma SumExtends(segment: seq<Action>, a: Action)
    ensures Sum(segment + [a]) == Add(Sum(segment), a)
  {
    assert (segment + [a])[..|segment|] == segment;
  }

  lemma {:induction false} SumWithoutResizes(segment: seq<Action>)
    ensures Sum(WithoutResizes(segment)) == Sum(segment).(resize := None)
  {
    if segment != [] {
      var n := |segment| - 1;
      SumWithoutResizes(segment[..n]);
      SumExtends(WithoutResizes(segment[..n]), segment[n]);
    }
  }

  lemma {:induction false} SumWithoutInvalidations(segment: seq<Action>)
    ensures Sum(WithoutInvalidations(segment)) ==
        Sum(segment).(invalidated := false, components := false, force := false)
  {
    if segment != [] {
      var n := |segment| - 1;
      SumWithoutInvalidations(segment[..n]);
      SumExtends(WithoutInvalidations(segment[..n]), segment[n]);
    }
  }

  /** The flags of a summary are the OR of those in the segment. */
  lemma {:induction false} SumIsOr(segment: seq<Action>)
    ensures Sum(segment).components <==> exists i ::
        0 <= i < |segment| && segment[i].Invalidated? && segment[i].components
    ensures Sum(segment).force <==> exists i :: 0 <= i < |segment| && segment[i].Invalidated? && segment[i].force
    ensures Sum(segment).invalidated <==> exists i :: 0 <= i < |segment| && segment[i].Invalidated?
  {
    if segment != [] {
      var n := |segment| - 1;
      var front := segment[..n];
      SumIsOr(front);
      assert forall i | 0 <= i < n :: front[i] == segment[i];
    }
  }

  lemma {:induction false} DigestOfSegment(sealed: seq<Action>, segment: seq<Action>)
    requires forall i | 0 <= i < |segment| :: !IsLifecycle(segment[i])
    requires DigestOf(sealed).current == NOTHING
    ensures DigestOf(sealed + segment) == Digest(DigestOf(sealed).closed, Sum(segment))
  {
    if segment == [] {
      assert sealed + segment == sealed;
    } else {
      var n := |segment| - 1;
      DigestOfSegment(sealed, segment[..n]);
      assert sealed + segment == (sealed + segment[..n]) + [segment[n]];
      DigestExtends(sealed + segment[..n], segment[n]);
    }
  }

  lemma PushKeepsSum(b: Buffer, a: Action)
    requires !IsLifecycle(a)
    ensures Push(b, a).sealed == b.sealed && Sum(Push(b, a).segment) == Add(Sum(b.segment), a)
  {
    match a {
      case Resized(_) =>
        SumWithoutResizes(b.segment);
        SumExtends(WithoutResizes(b.segment), a);
      case Invalidated(_, _) =>
        SumWithoutInvalidations(b.segment);
        SumIsOr(b.segment);
        SumExtends(WithoutInvalidations(b.segment), Joined(b.segment, a));
      case Input(_) => SumExtends(b.segment, a);
    }
  }

  /**
    Between any two lifecycle boundaries, coalescing keeps the last resize, all inputs in order, and
    the OR of the component and force flags; the boundaries themselves are kept.
   */
  lemma {:induction false} CoalescingKeepsDigest(actions: seq<Action>)
    ensures DigestOf(Coalesce(actions)) == DigestOf(actions)
    ensures DigestOf(Batch(actions).sealed).current == NOTHING
  {
    if actions == [] {
    } else {
      var n := |actions| - 1;
      var b, a, c := Batch(actions[..n]), actions[n], Batch(actions);
      CoalescingKeepsDigest(actions[..n]);
      BatchIsTidy(actions[..n]);
      BatchIsTidy(actions);
      TidyMeans(b.segment);
      TidyMeans(c.segment);
      DigestOfSegment(b.sealed, b.segment);
      if IsLifecycle(a) {
        assert c.sealed == b.Flat() + [a] && c.Flat() == c.sealed;
        DigestExtends(b.Flat(), a);
      } else {
        PushKeepsSum(b, a);
        hide Push, Batch;
        DigestOfSegment(b.sealed, c.segment);
      }
    }
  }

  // ------------------------------------------------------------------ the meaning depends on the digest only

  function Apply(m: Meaning, s: Summary): Meaning {
    if !m.running then m else
      m.(size := if s.resize.Some? then Normalize(s.resize.value) else m.size,
         inputSequence := m.inputSequence + |s.inputs|, inputs := m.inputs + s.inputs)
  }

  function ApplyClosed(m: Meaning, closed: seq<Closed>): Meaning {
    if closed == [] then m else
      var last := closed[|closed| - 1];
      Then(Apply(ApplyClosed(m, closed[..|closed| - 1]), last.summary), last.boundary)
  }

  function Interpret(s: UiState, d: Digest): Meaning {
    Apply(ApplyClosed(Meaning(s.running, s.size, s.inputSequence, []), d.closed), d.current)
  }

  lemma ApplyAdds(m: Meaning, s: Summary, a: Action)
    requires !IsLifecycle(a)
    ensures Apply(m, Add(s, a)) == Then(Apply(m, s), a)
  {
    if a.Input? && m.running {
      assert m.inputs + (s.inputs + [a.data]) == m.inputs + s.inputs + [a.data];
    }
  }

  lemma {:induction false} MeaningFromDigest(s: UiState, actions: seq<Action>)
    ensures MeaningOf(s, actions) == Interpret(s, DigestOf(actions))
  {
    if actions == [] {
      assert Inputs([]) == [];
    } else {
      var n := |actions| - 1;
      var front, a := actions[..n], actions[n];
      var d := DigestOf(front);
      MeaningFromDigest(s, front);
      assert actions == front + [a];
      MeaningExtends(s, front, a);
      hide MeaningOf;
      if IsLifecycle(a) {
        var closed := d.closed + [Closed(d.current, a)];
        assert closed[..|d.closed|] == d.closed;
        var m := Then(Apply(ApplyClosed(Meaning(s.running, s.size, s.inputSequence, []), d.closed), d.current), a);
        assert m.inputs + [] == m.inputs;
      } else {
        ApplyAdds(ApplyClosed(Meaning(s.running, s.size, s.inputSequence, []), d.closed), d.current, a);
      }
    }
  }

  /** Reducing the coalesced actions gives the lifecycle, size, input count and delivered inputs of the originals. */
  lemma CoalescingKeepsMeaning(s: UiState, actions: seq<Action>)
    ensures MeaningOf(s, Coalesce(actions)) == MeaningOf(s, actions)
  {
    MeaningFromDigest(s, actions);
    MeaningFromDigest(s, Coalesce(actions));
    CoalescingKeepsDigest(actions);
    hide MeaningOf, Coalesce, DigestOf;
  }

  // ------------------------------------------------------------------ the loop

  lemma {:induction false} PeelResizes(segment: seq<Action>)
    requires segment != []
    ensures WithoutResizes(segment) ==
            if segment[0].Resized? then WithoutResizes(segment[1..]) else [segment[0]] + WithoutResizes(segment[1..])
  {
    var n := |segment| - 1;
    if n == 0 {
      assert segment[..0] == [] && segment[1..] == [];
    } else {
      PeelResizes(segment[..n]);
      assert segment[..n][1..] == segment[1..][..n - 1];
    }
  }

  lemma {:induction false} PeelInvalidations(segment: seq<Action>)
    requires segment != []
    ensures WithoutInvalidations(segment) ==
            if segment[0].Invalidated? then WithoutInvalidations(segment[1..])
                else [segment[0]] + WithoutInvalidations(segment[1..])
  {
    var n := |segment| - 1;
    if n == 0 {
      assert segment[..0] == [] && segment[1..] == [];
    } else {
      PeelInvalidations(segment[..n]);
      assert segment[..n][1..] == segment[1..][..n - 1];
    }
  }

  /** What a backward loop at `index` has left of the result. */
  ghost predicate ResizesSpliced(result: seq<Action>, index: nat, r: seq<Action>) {
    index <= |result| && r == result[..index] + WithoutResizes(result[index..])
  }

  ghost predicate InvalidationsSpliced(result: seq<Action>, index: nat, r: seq<Action>, a: Action, joined: Action) {
    && index <= |result| && r == result[..index] + WithoutInvalidations(result[index..])
    && a.Invalidated? && joined == Joined(result[index..], a)
  }

  lemma Spliced(front: seq<Action>, x: Action, back: seq<Action>)
    ensures var r := front + [x] + back; r[|front|] == x && r[..|front|] + r[|front| + 1..] == front + back
    ensures front + [x] + back == front + ([x] + back)
  {
  }

  lemma AroundIndex(result: seq<Action>, index: nat)
    requires index < |result|
    ensures result[index..][1..] == result[index + 1..] && result[index..][0] == result[index]
    ensures result[..index + 1] == result[..index] + [result[index]]
  {
  }

  lemma SpliceResize(result: seq<Action>, index: nat, r: seq<Action>)
    requires ResizesSpliced(result, index + 1, r)
    ensures index < |r| && r[index] == result[index]
    ensures if r[index].Resized? then ResizesSpliced(result, index, r[..index] + r[index + 1..])
        else ResizesSpliced(result, index, r)
  {
    hide WithoutResizes;
    PeelResizes(result[index..]);
    AroundIndex(result, index);
    Spliced(result[..index], result[index], WithoutResizes(result[index + 1..]));
  }

  lemma SpliceInvalidation(result: seq<Action>, index: nat, r: seq<Action>, a: Action, joined: Action)
    requires InvalidationsSpliced(result, index + 1, r, a, joined)
    ensures index < |r| && r[index] == result[index] && joined.Invalidated?
    ensures if r[index].Invalidated?
            then InvalidationsSpliced(result, index, r[..index] + r[index + 1..], a,
                                      Invalidated(joined.components || r[index].components, joined.force ||
                                          r[index].force))
            else InvalidationsSpliced(result, index, r, a, joined)
  {
    hide WithoutInvalidations, Joined;
    PeelInvalidations(result[index..]);
    JoinedStep(result, index, a);
    AroundIndex(result, index);
    Spliced(result[..index], result[index], WithoutInvalidations(result[index + 1..]));
  }

  lemma JoinedStep(segment: seq<Action>, i: nat, a: Action)
    requires i < |segment| && a.Invalidated?
    ensures var later, x := Joined(segment[i + 1..], a), segment[i];
      Joined(segment[i..], a) == if x.Invalidated?
          then Invalidated(later.components || x.components, later.force || x.force) else later
  {
    var all, later := segment[i..], segment[i + 1..];
    assert all[0] == segment[i];
    assert forall k | 0 <= k < |later| :: later[k] == all[k + 1];
    assert forall k | 1 <= k < |all| :: all[k] == later[k - 1];
  }

  lemma NothingSpliced(result: seq<Action>, a: Action)
    ensures ResizesSpliced(result, |result|, result)
    ensures a.Invalidated? ==> InvalidationsSpliced(result, |result|, result, a, a)
  {
    assert result[..|result|] + [] == result && result[|result|..] == [];
  }

  /** Remove the resizes of the current segment, last to first. */
  method SpliceResizes(result: seq<Action>, segmentStart: nat) returns (r: seq<Action>)
    requires segmentStart <= |result|
    ensures ResizesSpliced(result, segmentStart, r)
  {
    r := result;
    var index := |result|;
    NothingSpliced(result, Stopped);
    hide *;
    while index > segmentStart
      invariant segmentStart <= index && ResizesSpliced(result, index, r)
    {
      index := index - 1;
      SpliceResize(result, index, r);
      if r[index].Resized? {
        r := r[..index] + r[index + 1..];
      }
    }
  }

  /** Remove the invalidations of the current segment, last to first, and gather their flags. */
  method SpliceInvalidations(result: seq<Action>, segmentStart: nat, a: Action) returns (r: seq<Action>, joined: Action)
    requires segmentStart <= |result| && a.Invalidated?
    ensures InvalidationsSpliced(result, segmentStart, r, a, joined)
  {
    r := result;
    var index, components, force := |result|, a.components, a.force;
    NothingSpliced(result, a);
    hide *;
    while index > segmentStart
      invariant segmentStart <= index && InvalidationsSpliced(result, index, r, a, Invalidated(components, force))
    {
      index := index - 1;
      SpliceInvalidation(result, index, r, a, Invalidated(components, force));
      if r[index].Invalidated? {
        components, force := components || r[index].components, force || r[index].force;
        r := r[..index] + r[index + 1..];
      }
    }
    joined := Invalidated(components, force);
  }

  /** The buffer a result and the start of its current segment stand for. */
  ghost function BufferAt(result: seq<Action>, segmentStart: nat): Buffer
    requires segmentStart <= |result|
  {
    Buffer(result[..segmentStart], result[segmentStart..])
  }

  lemma CutAt(front: seq<Action>, back: seq<Action>)
    ensures BufferAt(front + back, |front|) == Buffer(front, back)
  {
  }

  /** One iteration of the coalescing loop. */
  method PushAction(result: seq<Action>, segmentStart: nat, action: Action) returns (r: seq<Action>, start: nat)
    requires segmentStart <= |result|
    ensures start <= |r| && BufferAt(r, start) == Push(BufferAt(result, segmentStart), action)
  {
    ghost var sealed, segment := result[..segmentStart], result[segmentStart..];
    assert sealed + segment == result;
    hide WithoutResizes, WithoutInvalidations, Joined;
    start := segmentStart;
    match action {
      case Resized(_) =>
        r := SpliceResizes(result, segmentStart);
        r := r + [action];
        assert r == sealed + (WithoutResizes(segment) + [action]);
        CutAt(sealed, WithoutResizes(segment) + [action]);
      case Invalidated(_, _) =>
        var joined;
        r, joined := SpliceInvalidations(result, segmentStart, action);
        r := r + [joined];
        assert r == sealed + (WithoutInvalidations(segment) + [joined]);
        CutAt(sealed, WithoutInvalidations(segment) + [joined]);
      case Input(_) =>
        r := result + [action];
        assert r == sealed + (segment + [action]);
        CutAt(sealed, segment + [action]);
      case _ =>
        r := result + [action];
        start := |r|;
        assert r + [] == r;
        CutAt(r, []);
    }
  }

  method CoalesceUiActions(actions: seq<Action>) returns (result: seq<Action>)
    ensures result == Coalesce(actions)
  {
    result := [];
    var segmentStart: nat := 0;
    assert actions[..0] == [];
    assert Batch([]) == BufferAt(result, 0);
    hide Batch, Push;
    for k := 0 to |actions|
      invariant segmentStart <= |result| && Batch(actions[..k]) == BufferAt(result, segmentStart)
    {
      assert actions[..k + 1] == actions[..k] + [actions[k]];
      BatchExtends(actions[..k], actions[k]);
      result, segmentStart := PushAction(result, segmentStart, actions[k]);
    }
    assert actions[..|actions|] == actions && result[..segmentStart] + result[segmentStart..] == result;
  }
}
