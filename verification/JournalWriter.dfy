/**
  The writer and the incremental reader of the external mutation journal
  (packages/permissions/src/external-mutation-journal.ts).
 */
module JournalProcesses {
  import opened Wrappers
  import opened Utf8
  import opened Json
  import JournalLines
  import opened JournalRecords
  import opened Journal

  /** How the file system treats one append: the sizes its writes return, then the outcome of the sync. */
  datatype Io = Io(opens: bool, writes: seq<nat>, synced: bool)

  class JournalFile {
    var content: seq<byte>

    constructor (content: seq<byte>)
      ensures this.content == content
    {
      this.content := content;
    }

    /** Whatever happens, some prefix of the bytes is appended; success means all of them. */
    method AppendDurably(bytes: seq<byte>, io: Io) returns (ok: bool, ghost torn: seq<byte>)
      modifies this
      ensures torn <= bytes && content == old(content) + torn && (ok ==> torn == bytes)
    {
      torn := [];
      if !io.opens {
        return false, torn;
      }
      var offset, k := 0, 0;
      while offset < |bytes|
        invariant offset <= |bytes| && torn == bytes[..offset] && content == old(content) + torn
        invariant k <= |io.writes|
        decreases |bytes| - offset
      {
        if k == |io.writes| {
          return false, torn;
        }
        var written := if io.writes[k] <= |bytes| - offset then io.writes[k] else |bytes| - offset;
        if written < 1 {
          return false, torn;
        }
        content := content + bytes[offset..offset + written];
        torn := torn + bytes[offset..offset + written];
        offset, k := offset + written, k + 1;
      }
      ok := io.synced;
    }
  }

  datatype WriterError = Unusable | BadToolCallId | BadPath | AlreadyAuthorized | TooMany | AppendFailed

  /** The writer's fields as functions of the events in its file. */
  ghost predicate Tracks(policy: Policy, events: seq<Event>, journalSequence: nat, authorizationSequence: nat,
                         ids: set<string>, active: map<string, Mutation>) {
    && journalSequence == |events| && authorizationSequence == Authorizations(events) && ids == CallIds(events)
    && AllIssued(policy, events)
    && (forall id | id in active :: id in ids)
    && (forall id | id in active ::
        active[id].mutationId in MutationIds(events) && active[id].mutationId !in ObservedIds(events))
    && (forall a, b | a in active && b in active && a != b :: active[a].mutationId != active[b].mutationId)
  }

  ghost predicate AllIssued(policy: Policy, events: seq<Event>) {
    && (forall id | id in MutationIds(events) :: IssuedBefore(policy, id, Authorizations(events) + 1))
    && ObservedIds(events) <= MutationIds(events)
  }

  lemma TracksAuthorized(policy: Policy, events: seq<Event>, js: nat, n: nat, ids: set<string>,
      active: map<string, Mutation>, m: Mutation)
    requires Tracks(policy, events, js, n, ids, active) && m.mutationId == MutationId(policy, n + 1)
    ensures Tracks(policy, events + [Authorized(js + 1, m)], js + 1, n + 1, ids + {m.toolCallId},
        active[m.toolCallId := m])
    ensures m.mutationId !in MutationIds(events)
  {
    IdsExtend(events, Authorized(js + 1, m));
    AuthorizationsExtend(events, Authorized(js + 1, m));
    FreshId(policy, events, n, m.mutationId);
    hide MutationId, Authorizations, MutationIds, ObservedIds, CallIds, IssuedBefore;
  }

  /** The next id is new, and all issued before it stay so. */
  lemma FreshId(policy: Policy, events: seq<Event>, n: nat, id: string)
    requires AllIssued(policy, events) && n == Authorizations(events) && id == MutationId(policy, n + 1)
    ensures id !in MutationIds(events) && IssuedBefore(policy, id, n + 2)
    ensures forall earlier | earlier in MutationIds(events) :: IssuedBefore(policy, earlier, n + 2)
  {
    hide MutationId, Authorizations, MutationIds, ObservedIds;
    if id in MutationIds(events) {
      var k: nat :| 1 <= k < n + 1 && id == MutationId(policy, k);
      MutationIdInjective(policy, k, n + 1);
      assert false;
    }
    forall earlier | earlier in MutationIds(events) ensures IssuedBefore(policy, earlier, n + 2) {
      var k: nat :| 1 <= k < n + 1 && earlier == MutationId(policy, k);
    }
  }

  lemma TracksObserved(policy: Policy, events: seq<Event>, js: nat, n: nat, ids: set<string>,
      active: map<string, Mutation>,
                       call: string, e: Event)
    requires Tracks(policy, events, js, n, ids, active) && e.Observed? && e.mutationId in MutationIds(events)
    requires call in active ==> active[call].mutationId == e.mutationId
    requires call !in active ==> e.mutationId in ObservedIds(events)
    ensures Tracks(policy, events + [e], js + 1, n, ids, active - {call})
  {
    IdsExtend(events, e);
    AuthorizationsExtend(events, e);
    hide MutationId, Authorizations, MutationIds, ObservedIds, CallIds;
  }

  /** `m` was the active mutation of `call` when its observation began. */
  ghost predicate Pending(events: seq<Event>, active: map<string, Mutation>, call: string, m: Mutation) {
    && m.mutationId in MutationIds(events) && call in CallIds(events)
    && if call in active then active[call] == m else m.mutationId in ObservedIds(events)
  }

  ghost predicate StaysPending(events: seq<Event>, active: map<string, Mutation>, events': seq<Event>,
      active': map<string, Mutation>) {
    forall call, m | Pending(events, active, call, m) :: Pending(events', active', call, m)
  }

  /** The bytes of the file: what was there, what was written, and the torn record of a failed append. */
  ghost predicate FileHolds(policy: Policy, content: seq<byte>, start: seq<byte>, existing: seq<Event>,
      written: seq<Event>,
                            failed: bool, inflight: Option<Event>, torn: seq<byte>) {
    && policy.Valid() && Read(policy, start, false) == Ok(existing) && History(policy, existing, written)
    && content == start + BytesOf(written) + torn
    && if failed
       then inflight.Some? && torn <= EventBytes(inflight.value) &&
           History(policy, existing, written + [inflight.value])
       else torn == []
  }

  lemma AppendedBytes(content: seq<byte>, start: seq<byte>, before: seq<byte>, torn: seq<byte>)
    requires content == start + before + []
    ensures content + torn == start + before + torn && content + torn == start + (before + torn) + []
  {
  }

  lemma AppendHolds(policy: Policy, content: seq<byte>, start: seq<byte>, existing: seq<Event>, written: seq<Event>,
                    e: Event, torn: seq<byte>, ok: bool)
    requires FileHolds(policy, content, start, existing, written, false, None, [])
    requires Follows(policy, existing + written, e) && torn <= EventBytes(e) && (ok ==> torn == EventBytes(e))
    ensures if ok then FileHolds(policy, content + torn, start, existing, written + [e], false, None, [])
            else FileHolds(policy, content + torn, start, existing, written, true, Some(e), torn)
  {
    assert (written + [e])[..|written|] == written;
    assert BytesOf(written + [e]) == BytesOf(written) + EventBytes(e);
    assert History(policy, existing, written + [e]);
    hide Read, EventBytes, Follows, BytesOf, History, Policy.Valid;
    AppendedBytes(content, start, BytesOf(written), torn);
  }

  lemma AuthorizingKeepsPending(events: seq<Event>, active: map<string, Mutation>, e: Event)
    requires e.Authorized? && e.mutation.toolCallId !in CallIds(events)
    ensures StaysPending(events, active, events + [e], active[e.mutation.toolCallId := e.mutation])
    ensures StaysPending(events, active, events, active)
  {
    IdsExtend(events, e);
    hide MutationIds, ObservedIds, CallIds;
  }

  function NewMutation(policy: Policy, n: nat, toolCallId: string, operation: Operation, path: string,
      at: Decimal): (m: Mutation)
    ensures m.toolCallId == toolCallId && m.operation == operation && m.path == path && m.authorizedAt == at
  {
    Mutation(MutationId(policy, n), policy.runId, policy.taskId, policy.attemptId, policy.attemptNumber,
             n, toolCallId, operation, path, at)
  }

  lemma AuthorizationIsNext(policy: Policy, events: seq<Event>, js: nat, n: nat, ids: set<string>,
      active: map<string, Mutation>,
                            m: Mutation)
    requires Tracks(policy, events, js, n, ids, active) && n < MAX_MUTATIONS
    requires m == NewMutation(policy, n + 1, m.toolCallId, m.operation, m.path, m.authorizedAt)
    requires ValidId(m.toolCallId) && ValidPath(m.path) && m.toolCallId !in ids
    ensures js == |events| && Follows(policy, events, Authorized(js + 1, m))
    ensures Tracks(policy, events + [Authorized(js + 1, m)], js + 1, n + 1, ids + {m.toolCallId},
        active[m.toolCallId := m])
    ensures StaysPending(events, active, events + [Authorized(js + 1, m)], active[m.toolCallId := m])
    ensures StaysPending(events, active, events, active)
  {
    hide ValidId, ValidPath, MutationId, Authorizations, CallIds, MutationIds, ObservedIds, AllIssued;
    TracksAuthorized(policy, events, js, n, ids, active, m);
    hide StaysPending;
    AuthorizingKeepsPending(events, active, Authorized(js + 1, m));
  }

  class JournalWriter {
    const policy: Policy
    const file: JournalFile
    var journalSequence: nat
    var authorizationSequence: nat
    var appendFailed: bool
    var active: map<string, Mutation>
    var authorizedToolCallIds: set<string>
    /** The file when the writer was created and the events then in it; the events written since. */
    ghost var start: seq<byte>
    ghost var existing: seq<Event>
    ghost var written: seq<Event>
    /** The record whose append failed, and what of it reached the file. */
    ghost var inflight: Option<Event>
    ghost var torn: seq<byte>

    ghost function Events(): seq<Event>
      reads this
    {
      existing + written
    }

    ghost predicate Valid()
      reads this, file
    {
      && FileHolds(policy, file.content, start, existing, written, appendFailed, inflight, torn)
      && Tracks(policy, Events(), journalSequence, authorizationSequence, authorizedToolCallIds, active)
    }

    /** The counters of a journal: its authorizations, and the calls they are for. */
    static method Count(events: seq<Event>) returns (count: nat, ids: set<string>)
      ensures count == Authorizations(events) && ids == CallIds(events)
    {
      count, ids := 0, {};
      assert events[..0] == [];
      NoIds();
      hide CallIds, Authorizations;
      assert Authorizations([]) == 0 by {
        NoAuthorizations();
      }
      for i := 0 to |events|
        invariant count == Authorizations(events[..i]) && ids == CallIds(events[..i])
      {
        AuthorizationsExtend(events[..i], events[i]);
        IdsExtend(events[..i], events[i]);
        assert events[..i + 1] == events[..i] + [events[i]];
        if events[i].Authorized? {
          count, ids := count + 1, ids + {events[i].mutation.toolCallId};
        }
      }
      assert events[..|events|] == events;
    }

    /** A writer for a file the strict reader accepts; its counters are rebuilt from the events. */
    constructor (policy: Policy, file: JournalFile, events: seq<Event>)
      requires policy.Valid() && Read(policy, file.content, false) == Ok(events)
      ensures Valid() && this.policy == policy && this.file == file && !appendFailed && active == map[]
      ensures existing == events && written == []
    {
      this.policy, this.file := policy, file;
      journalSequence, appendFailed, active := |events|, false, map[];
      start, existing, written, inflight, torn := file.content, events, [], None, [];
      var count, ids := Count(events);
      assert events + [] == events;
      ReadIsIssued(policy, file.content);
      authorizationSequence, authorizedToolCallIds := count, ids;
    }

    /** The events whose lines are complete in the file; the last may be one whose append has failed. */
    ghost function InFile(): seq<Event>
      reads this
      requires appendFailed ==> inflight.Some?
    {
      if appendFailed && torn == EventBytes(inflight.value) then written + [inflight.value] else written
    }

    /**
      What readers make of the file of a writer, at any time: a lenient one sees the events whose lines
      are complete, and while no append has failed a strict one sees the same.
     */
    lemma FileIsRead()
      requires Valid()
      ensures appendFailed ==> inflight.Some?
      ensures var r := Read(policy, file.content, true);
        && (r.Ok? <==> |file.content| <= MAX_JOURNAL_BYTES && AllReadable(existing, InFile()))
        && (r.Ok? ==> r.value == existing + InFile())
      ensures var r := Read(policy, file.content, false);
        !appendFailed ==>
          && (r.Ok? <==> |file.content| <= MAX_JOURNAL_BYTES && AllReadable(existing, written))
          && (r.Ok? ==> r.value == existing + written)
    {
      hide Read, EventBytes, BytesOf, History, AllReadable, Tracks, Policy.Valid;
      if appendFailed {
        TornAppend(policy, start, written, inflight.value, torn);
      } else {
        assert start + BytesOf(written) + [] == start + BytesOf(written);
        WrittenIsRead(policy, start, written);
        WrittenIsReadLeniently(policy, start, written);
      }
    }

    /** After a failed append nothing is ever written again. */
    method Append(e: Event, io: Io) returns (ok: bool)
      requires FileHolds(policy, file.content, start, existing, written, appendFailed, inflight, torn)
      requires Follows(policy, Events(), e)
      modifies this`appendFailed, this`written, this`inflight, this`torn, file
      ensures FileHolds(policy, file.content, start, existing, written, appendFailed, inflight, torn)
      ensures appendFailed == !ok
      ensures old(appendFailed) ==> !ok && file.content == old(file.content) && inflight == old(inflight)
      ensures written == if ok then old(written) + [e] else old(written)
      ensures !ok && !old(appendFailed) ==>
        inflight == Some(e) && file.content == old(file.content) + torn && torn <= EventBytes(e)
    {
      if appendFailed {
        return false;
      }
      assert FileHolds(policy, file.content, start, existing, written, false, None, []);
      hide FileHolds, Follows, EventBytes;
      ghost var added;
      ghost var content := file.content;
      ok, added := file.AppendDurably(EventBytes(e), io);
      AppendHolds(policy, content, start, existing, written, e, added, ok);
      if ok {
        written, inflight, torn := written + [e], None, [];
      } else {
        appendFailed, inflight, torn := true, Some(e), added;
      }
    }

    /** The checks before an authorization, in order. */
    ghost function Refusal(toolCallId: string, path: string): Option<WriterError>
      reads this
    {
      if appendFailed then Some(Unusable)
      else if !ValidId(toolCallId) then Some(BadToolCallId)
      else if !ValidPath(path) then Some(BadPath)
      else if toolCallId in authorizedToolCallIds then Some(AlreadyAuthorized)
      else if authorizationSequence >= MAX_MUTATIONS then Some(TooMany)
      else None
    }

    method Authorize(toolCallId: string, operation: Operation, path: string, authorizedAt: Decimal, io: Io)
        returns (r: Result<Mutation, WriterError>)
      requires Valid()
      modifies this, file
      ensures Valid() && start == old(start) && existing == old(existing)
      ensures match old(Refusal(toolCallId, path)) {
        case Some(error) => r == Err(error) && written == old(written) && file.content == old(file.content) &&
            active == old(active)
        case None => r.Ok? || r == Err(AppendFailed)
      }
      ensures r.Ok? ==>
        && written == old(written) + [Authorized(|old(Events())| + 1, r.value)] && !appendFailed
        && r.value.toolCallId == toolCallId && r.value.operation == operation && r.value.path == path
        && r.value.authorizedAt == authorizedAt && active == old(active)[toolCallId := r.value]
      ensures r == Err(AppendFailed) ==> appendFailed && written == old(written) && active == old(active)
      ensures old(appendFailed) ==> appendFailed && file.content == old(file.content)
      ensures StaysPending(old(Events()), old(active), Events(), active)
    {
      hide FileHolds, Follows, EventBytes, Authorizations, ValidId, ValidPath, MutationId, AllIssued;
      if appendFailed {
        return Err(Unusable);
      }
      if !ValidId(toolCallId) {
        return Err(BadToolCallId);
      }
      if !ValidPath(path) {
        return Err(BadPath);
      }
      if toolCallId in authorizedToolCallIds {
        return Err(AlreadyAuthorized);
      }
      if authorizationSequence >= MAX_MUTATIONS {
        return Err(TooMany);
      }
      r := AppendAuthorization(toolCallId, operation, path, authorizedAt, io);
    }

    method AppendAuthorization(toolCallId: string, operation: Operation, path: string, authorizedAt: Decimal, io: Io)
        returns (r: Result<Mutation, WriterError>)
      requires Valid() && !appendFailed && ValidId(toolCallId) && ValidPath(path)
      requires toolCallId !in authorizedToolCallIds && authorizationSequence < MAX_MUTATIONS
      modifies this, file
      ensures Valid() && start == old(start) && existing == old(existing)
      ensures r.Ok? ==>
        && written == old(written) + [Authorized(|old(Events())| + 1, r.value)] && !appendFailed
        && r.value.toolCallId == toolCallId && r.value.operation == operation && r.value.path == path
        && r.value.authorizedAt == authorizedAt && active == old(active)[toolCallId := r.value]
      ensures r.Err? ==> r == Err(AppendFailed) && appendFailed && written == old(written) && active == old(active)
      ensures StaysPending(old(Events()), old(active), Events(), active)
    {
      hide FileHolds, Follows, Tracks, StaysPending, EventBytes, Authorizations, CallIds, ValidId, ValidPath,
          MutationId, AllIssued;
      var mutation := NewMutation(policy, authorizationSequence + 1, toolCallId, operation, path, authorizedAt);
      ghost var events := Events();
      AuthorizationIsNext(policy, events, journalSequence, authorizationSequence, authorizedToolCallIds, active,
          mutation);
      var ok := Append(Authorized(journalSequence + 1, mutation), io);
      assert Events() == if ok then events + [Authorized(journalSequence + 1, mutation)] else events;
      if !ok {
        return Err(AppendFailed);
      }
      authorizationSequence, journalSequence := authorizationSequence + 1, journalSequence + 1;
      authorizedToolCallIds, active := authorizedToolCallIds + {toolCallId}, active[toolCallId := mutation];
      r := Ok(mutation);
    }

    /** The synchronous part of `observe`: nothing is recorded for a call that is not active. */
    method BeginObserve(toolCallId: string) returns (m: Option<Mutation>)
      requires Valid()
      ensures m == if toolCallId in active then Some(active[toolCallId]) else None
      ensures m.Some? ==> Pending(Events(), active, toolCallId, m.value)
    {
      m := if toolCallId in active then Some(active[toolCallId]) else None;
    }

    /**
      The rest of `observe`, once the post-state has been captured; other calls may have come between.
      The record can be read back exactly when no other observation of the call finished meanwhile.
     */
    method FinishObserve(toolCallId: string, m: Mutation, outcome: ToolOutcome, observedAt: Decimal, post: PostState,
        io: Io)
        returns (ok: bool)
      requires Valid() && Pending(Events(), active, toolCallId, m) && ValidPostState(post)
      modifies this, file
      ensures Valid() && start == old(start) && existing == old(existing)
      ensures ok ==>
        && written == old(written) + [Observed(|old(Events())| + 1, m.mutationId, outcome, observedAt, post)]
        && !appendFailed && active == old(active) - {toolCallId}
      ensures ok ==>
        (Readable(old(Events()), written[|old(written)|]) <==> toolCallId in old(active) && SafeNatural(observedAt))
      ensures !ok ==> appendFailed && written == old(written) && active == old(active)
      ensures old(appendFailed) ==> !ok && file.content == old(file.content)
      ensures StaysPending(old(Events()), old(active), Events(), active)
    {
      hide FileHolds, Tracks, StaysPending, EventBytes, Authorizations, CallIds, AllIssued, MutationIds, ObservedIds;
      ghost var events := Events();
      var e := Observed(journalSequence + 1, m.mutationId, outcome, observedAt, post);
      ObservationIsNext(policy, events, journalSequence, authorizationSequence, authorizedToolCallIds, active,
          toolCallId, m, e);
      hide Follows, Pending;
      ok := Append(e, io);
      assert Events() == if ok then events + [e] else events;
      if ok {
        journalSequence, active := journalSequence + 1, active - {toolCallId};
      }
    }
  }

  lemma ObservationIsNext(policy: Policy, events: seq<Event>, js: nat, n: nat, ids: set<string>,
      active: map<string, Mutation>,
                          call: string, m: Mutation, e: Event)
    requires Tracks(policy, events, js, n, ids, active) && Pending(events, active, call, m)
    requires e.Observed? && e.mutationId == m.mutationId && e.journalSequence == js + 1 && ValidPostState(e.postState)
    ensures js == |events| && Follows(policy, events, e)
    ensures Tracks(policy, events + [e], js + 1, n, ids, active - {call})
    ensures e.mutationId in ObservedIds(events) <==> call !in active
    ensures StaysPending(events, active, events + [e], active - {call})
    ensures StaysPending(events, active, events, active)
  {
    IdsExtend(events, e);
    hide MutationId, Authorizations, CallIds, MutationIds, ObservedIds, AllIssued, ValidPostState;
    TracksObserved(policy, events, js, n, ids, active, call, e);
  }

  lemma ReadIsIssued(policy: Policy, content: seq<byte>)
    requires Read(policy, content, false).Ok?
    ensures AllIssued(policy, Read(policy, content, false).value)
  {
    RecordsSummarised(policy, JournalLines.Lines(content));
    hide JournalLines.Lines, JournalLines.Complete, Records, MutationIds, ObservedIds, Authorizations, ValidId,
        IssuedBefore;
  }

  /** A call observed twice at once makes a journal that is refused: the concrete three events. */
  lemma OverlappingObservationsAreRefused(policy: Policy, m: Mutation, post: PostState)
    requires policy.Valid() && ValidPostState(post) && ValidId(m.toolCallId) && ValidPath(m.path)
    requires m == NewMutation(policy, 1, m.toolCallId, m.operation, m.path, m.authorizedAt)
    ensures var second, third := Observed(2, m.mutationId, Succeeded, Integer(0), post),
        Observed(3, m.mutationId, Succeeded, Integer(0), post);
      History(policy, [], [Authorized(1, m), second, third]) &&
          Read(policy, BytesOf([Authorized(1, m), second, third]), false).Err?
  {
    var first := Authorized(1, m);
    var second, third := Observed(2, m.mutationId, Succeeded, Integer(0), post),
        Observed(3, m.mutationId, Succeeded, Integer(0), post);
    var none: seq<Event> := [];
    var all := [first, second, third];
    DoubleObservation(policy, m, second, third);
    hide History, AllReadable, BytesOf, JournalLines.Lines, Records, JournalLines.Complete, Follows, Readable,
        Policy.Valid, ValidId, ValidPath;
    EmptyJournal(policy);
    assert [] + BytesOf(all) == BytesOf(all);
    WrittenIsRead(policy, [], all);
  }

  lemma EmptyJournal(policy: Policy)
    ensures Read(policy, [], false) == Ok([])
  {
    JournalLines.NoLines([]);
    hide JournalLines.Lines;
  }

  lemma DoubleObservation(policy: Policy, m: Mutation, second: Event, third: Event)
    requires ValidId(m.toolCallId) && ValidPath(m.path)
    requires m == NewMutation(policy, 1, m.toolCallId, m.operation, m.path, m.authorizedAt)
    requires second.Observed? && second.mutationId == m.mutationId && second.journalSequence == 2 &&
        ValidPostState(second.postState)
    requires third.Observed? && third.mutationId == m.mutationId && third.journalSequence == 3 &&
        ValidPostState(third.postState)
    ensures History(policy, [], [Authorized(1, m), second, third]) &&
        !AllReadable([], [Authorized(1, m), second, third])
  {
    var first := Authorized(1, m);
    var none: seq<Event> := [];
    ThreeFollow(policy, m, second, third);
    EmptyHistory(policy);
    hide *;
    assert none + [first] == [first] && [first] + [second] == [first, second] &&
        [first, second] + [third] == [first, second, third];
    assert none + none == none && none + [first, second] == [first, second];
    HistoryExtends(policy, none, none, first);
    HistoryExtends(policy, none, [first], second);
    HistoryExtends(policy, none, [first, second], third);
  }

  lemma ThreeFollow(policy: Policy, m: Mutation, second: Event, third: Event)
    requires ValidId(m.toolCallId) && ValidPath(m.path)
    requires m == NewMutation(policy, 1, m.toolCallId, m.operation, m.path, m.authorizedAt)
    requires second.Observed? && second.mutationId == m.mutationId && second.journalSequence == 2 &&
        ValidPostState(second.postState)
    requires third.Observed? && third.mutationId == m.mutationId && third.journalSequence == 3 &&
        ValidPostState(third.postState)
    ensures Follows(policy, [], Authorized(1, m)) && Follows(policy, [Authorized(1, m)], second)
    ensures Follows(policy, [Authorized(1, m), second], third) && !Readable([Authorized(1, m), second], third)
  {
    var first := Authorized(1, m);
    var none: seq<Event> := [];
    NoIds();
    hide ValidId, ValidPath, ValidPostState, MutationId, MutationIds, ObservedIds, CallIds;
    IdsExtend(none, first);
    IdsExtend([first], second);
    assert none + [first] == [first] && [first] + [second] == [first, second];
  }

  lemma EmptyHistory(policy: Policy)
    ensures History(policy, [], [])
  {
  }

  lemma HistoryExtends(policy: Policy, existing: seq<Event>, written: seq<Event>, e: Event)
    requires History(policy, existing, written) && Follows(policy, existing + written, e)
    ensures History(policy, existing, written + [e])
    ensures !Readable(existing + written, e) ==> !AllReadable(existing, written + [e])
  {
    assert (written + [e])[..|written|] == written;
    hide Follows, Readable;
  }

  lemma NoAuthorizations()
    ensures Authorizations([]) == 0
  {
  }

  lemma NoIds()
    ensures MutationIds([]) == {} && ObservedIds([]) == {} && CallIds([]) == {}
  {
  }

  // ------------------------------------------------------------------ reader

  /** What one poll comes to; `Thrown` when the callback threw. */
  datatype Drained = Delivered(sequence: nat) | Thrown | Refused(error: JournalError)

  class JournalReader {
    const policy: Policy
    var deliveredSequence: nat
    /** The file as it was last read, and every event the callback has taken. */
    ghost var seen: seq<byte>
    ghost var delivered: seq<Event>

    /** Every event of the file has been delivered once, in order, up to a point. */
    ghost predicate Valid()
      reads this
    {
      && Read(policy, seen, true).Ok? && deliveredSequence == |delivered|
      && delivered <= Read(policy, seen, true).value
    }

    constructor (policy: Policy)
      ensures Valid() && this.policy == policy && delivered == [] && seen == []
    {
      this.policy, deliveredSequence, delivered, seen := policy, 0, [], [];
      JournalLines.NoLines([]);
    }

    /**
      One poll of a file that has grown since the last one. `patience` is how many events the
      callback takes before it throws; the event it threw at is the first of the next poll.
     */
    method Drain(file: JournalFile, patience: nat) returns (r: Drained, ghost offered: seq<Event>)
      requires Valid() && seen <= file.content
      modifies this
      ensures Valid() && old(delivered) <= delivered
      ensures r.Refused? <==> Read(policy, file.content, true).Err?
      ensures r.Refused? ==> delivered == old(delivered) && seen == old(seen) && offered == []
      ensures !r.Refused? ==> seen == file.content
      ensures r.Delivered? ==> delivered == Read(policy, seen, true).value && r.sequence == |delivered|
      ensures r.Delivered? ==> old(delivered) + offered == delivered
      ensures r.Thrown? ==>
        && |delivered| < |Read(policy, seen, true).value| && offered != []
        && old(delivered) + offered == Read(policy, seen, true).value[..|delivered| + 1]
    {
      hide Read, Records;
      var parsed := ParseExternalMutationJournal(policy, file.content, true);
      offered := [];
      if parsed.Err? {
        return Refused(parsed.error), offered;
      }
      var events := parsed.value;
      Grown(policy, seen, file.content);
      EventsAreNumbered(policy, file.content, true);
      seen := file.content;
      var i, calls := 0, 0;
      while i < |events|
        invariant i <= |events| && deliveredSequence == |delivered| && delivered <= events
        invariant i <= |delivered| && (offered != [] ==> i == |delivered|)
        invariant old(delivered) + offered == delivered
        modifies this`deliveredSequence, this`delivered
      {
        if events[i].journalSequence > deliveredSequence {
          assert i == |delivered|;
          offered := offered + [events[i]];
          assert delivered + [events[i]] == events[..i + 1];
          if calls == patience {
            return Thrown, offered;
          }
          calls := calls + 1;
          deliveredSequence, delivered := events[i].journalSequence, delivered + [events[i]];
        }
        i := i + 1;
      }
      r := Delivered(deliveredSequence);
    }
  }

  lemma Grown(policy: Policy, before: seq<byte>, after: seq<byte>)
    requires before <= after && Read(policy, after, true).Ok? && Read(policy, before, true).Ok?
    ensures Read(policy, before, true).value <= Read(policy, after, true).value
  {
    assert after == before + after[|before|..];
    hide Read;
    GrowingJournal(policy, before, after[|before|..]);
  }
}
