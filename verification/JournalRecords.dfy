/**
  The records of the external mutation journal: how they are printed, and the validation each one
  passes when the journal is read (packages/permissions/src/external-mutation-journal.ts).
 */
module JournalRecords {
  import opened Wrappers
  import opened Json

  const VERSION: nat := 1
  const MAX_MUTATIONS: nat := 256
  const MAX_PATH_CHARS: nat := 4096
  const MAX_ID_CHARS: nat := 256
  const MAX_SAFE_INTEGER: nat := 9007199254740991

  datatype Policy = Policy(runId: string, taskId: string, attemptId: string, attemptNumber: nat) {
    predicate Valid() {
      ValidId(runId) && ValidId(taskId) && ValidId(attemptId) && 1 <= attemptNumber <= MAX_SAFE_INTEGER
    }
  }

  datatype Operation = Write | Edit

  datatype ToolOutcome = Succeeded | Failed

  datatype Reason = Missing | NotRegularFile | ChangedDuringObservation | ReadError

  datatype PostState =
    | Confirmed(size: nat, mode: nat, modifiedAtMs: Decimal, sha256: string)
    | Unavailable(reason: Reason)

  datatype Mutation = Mutation(
    mutationId: string, runId: string, taskId: string, attemptId: string, attemptNumber: nat,
    authorizationSequence: nat, toolCallId: string, operation: Operation, path: string, authorizedAt: Decimal)

  datatype Event =
    | Authorized(journalSequence: nat, mutation: Mutation)
    | Observed(journalSequence: nat, mutationId: string, toolResult: ToolOutcome, observedAt: Decimal,
        postState: PostState)

  datatype JournalError =
    | TooLarge | Incomplete | NotJson | BadVersion | SequenceGap | BadMutation | AuthorizationGap | ForeignId
    | DuplicateId | NoAuthorization | RepeatedObservation | BadOutcome | BadTimestamp | BadPostState

  // ------------------------------------------------------------------ identifiers, paths and numbers

  /** `value.length`: UTF-16 code units. */
  function Units(s: string): (n: nat)
    ensures s != "" ==> n > 0
  {
    if s == "" then 0 else Units(s[..|s| - 1]) + if s[|s| - 1] as int < 0x10000 then 1 else 2
  }

  /** The general categories Cc and Cf. */
  predicate IsControl(c: char) {
    var n := c as int;
    || n < 0x20 || 0x7F <= n < 0xA0
    || n == 0xAD || 0x600 <= n <= 0x605 || n == 0x61C || n == 0x6DD || n == 0x70F || 0x890 <= n <= 0x891
    || n == 0x8E2 || n == 0x180E || 0x200B <= n <= 0x200F || 0x202A <= n <= 0x202E || 0x2060 <= n <= 0x2064
    || 0x2066 <= n <= 0x206F || n == 0xFEFF || 0xFFF9 <= n <= 0xFFFB || n == 0x110BD || n == 0x110CD
    || 0x13430 <= n <= 0x1343F || 0x1BCA0 <= n <= 0x1BCA3 || 0x1D173 <= n <= 0x1D17A || n == 0xE0001
    || 0xE0020 <= n <= 0xE007F
  }

  predicate NoControls(s: string) {
    forall i | 0 <= i < |s| :: !IsControl(s[i])
  }

  predicate ValidId(s: string) {
    0 < Units(s) <= MAX_ID_CHARS && NoControls(s)
  }

  /** The text up to the next slash. */
  function Segment(s: string): string {
    if s == "" || s[0] == '/' then "" else [s[0]] + Segment(s[1..])
  }

  /** `isAbsolute(path) && resolve(path) === path`: slashes begin non-empty segments other than `.` and `..`. */
  predicate NormalPath(path: string) {
    && path != "" && path[0] == '/'
    && (path == "/" || forall i | 0 <= i < |path| && path[i] == '/' :: Segment(path[i + 1..]) !in {"", ".", ".."})
  }

  predicate ValidPath(path: string) {
    NormalPath(path) && Units(path) <= MAX_PATH_CHARS
  }

  function Integer(n: nat): Decimal {
    Number(false, n, "")
  }

  /** `Number.isSafeInteger(value) && value >= 0`. */
  predicate SafeNatural(n: Decimal) {
    !n.negative && n.fraction == "" && n.whole <= MAX_SAFE_INTEGER
  }

  predicate IsSha256(s: string) {
    |s| == 64 && forall i | 0 <= i < |s| :: IsDigit(s[i]) || 'a' <= s[i] <= 'f'
  }

  /** The post-states that capturing a file can yield. */
  predicate ValidPostState(p: PostState) {
    p.Confirmed? ==> p.size <= MAX_SAFE_INTEGER && p.mode <= MAX_SAFE_INTEGER && IsSha256(p.sha256)
  }

  // ------------------------------------------------------------------ printing

  function OperationName(o: Operation): string {
    if o == Write then "write" else "edit"
  }

  function OutcomeName(o: ToolOutcome): string {
    if o == Succeeded then "succeeded" else "failed"
  }

  function ReasonName(r: Reason): string {
    match r
    case Missing => "missing"
    case NotRegularFile => "not_regular_file"
    case ChangedDuringObservation => "changed_during_observation"
    case ReadError => "read_error"
  }

  function PostStateMembers(p: PostState): seq<Member> {
    match p
    case Confirmed(size, mode, modified, sha) =>
      [Member("status", Str("confirmed")), Member("fileType", Str("regular")), Member("size", Num(Integer(size))),
       Member("mode", Num(Integer(mode))), Member("modifiedAtMs", Num(modified)), Member("sha256", Str(sha))]
    case Unavailable(reason) =>
      [Member("status", Str("unavailable")), Member("reason", Str(ReasonName(reason)))]
  }

  function MutationMembers(m: Mutation): seq<Member> {
    [Member("mutationId", Str(m.mutationId)), Member("runId", Str(m.runId)), Member("taskId", Str(m.taskId)),
     Member("attemptId", Str(m.attemptId)), Member("attemptNumber", Num(Integer(m.attemptNumber))),
     Member("authorizationSequence", Num(Integer(m.authorizationSequence))), Member("toolCallId", Str(m.toolCallId)),
     Member("operation", Str(OperationName(m.operation))), Member("path", Str(m.path)),
     Member("authorizationStatus", Str("authorized")), Member("authorizedAt", Num(m.authorizedAt))]
  }

  function EventMembers(e: Event): seq<Member> {
    match e
    case Authorized(k, m) =>
      [Member("journalVersion", Num(Integer(VERSION))), Member("journalSequence", Num(Integer(k))),
       Member("type", Str("authorized")), Member("mutation", Obj(MutationMembers(m)))]
    case Observed(k, id, outcome, at, post) =>
      [Member("journalVersion", Num(Integer(VERSION))), Member("journalSequence", Num(Integer(k))),
       Member("type", Str("observed")), Member("mutationId", Str(id)), Member("toolResult", Str(OutcomeName(outcome))),
       Member("observedAt", Num(at)), Member("postState", Obj(PostStateMembers(post)))]
  }

  function PrintEvent(e: Event): string {
    Print(Obj(EventMembers(e)))
  }

  // ------------------------------------------------------------------ reading one record

  function TextOf(members: seq<Member>, key: string): Option<string> {
    match Get(members, key)
    case Some(Str(s)) => Some(s)
    case _ => None
  }

  function NumberOf(members: seq<Member>, key: string): Option<Decimal> {
    match Get(members, key)
    case Some(Num(n)) => Some(n)
    case _ => None
  }

  function ParseOperation(s: Option<string>): Option<Operation> {
    if s == Some("write") then Some(Write) else if s == Some("edit") then Some(Edit) else None
  }

  function ParseOutcome(s: Option<string>): Option<ToolOutcome> {
    if s == Some("succeeded") then Some(Succeeded) else if s == Some("failed") then Some(Failed) else None
  }

  function ParseReason(s: Option<string>): Option<Reason> {
    if s == Some("missing") then Some(Missing)
    else if s == Some("not_regular_file") then Some(NotRegularFile)
    else if s == Some("changed_during_observation") then Some(ChangedDuringObservation)
    else if s == Some("read_error") then Some(ReadError)
    else None
  }

  function ParsePostState(value: Option<Json>): (r: Result<PostState, JournalError>)
    ensures r.Ok? ==> ValidPostState(r.value)
  {
    if value.None? || !value.value.Obj? then Err(BadPostState) else
      var m := value.value.members;
      if TextOf(m, "status") == Some("unavailable") then
        var reason := ParseReason(TextOf(m, "reason"));
        if reason.None? then Err(BadPostState) else Ok(Unavailable(reason.value))
      else
        var size, mode, modified, sha := NumberOf(m, "size"), NumberOf(m, "mode"), NumberOf(m, "modifiedAtMs"),
            TextOf(m, "sha256");
        if && TextOf(m, "status") == Some("confirmed") && TextOf(m, "fileType") == Some("regular")
           && size.Some? && SafeNatural(size.value) && mode.Some? && SafeNatural(mode.value)
           && modified.Some? && sha.Some? && IsSha256(sha.value)
        then Ok(Confirmed(size.value.whole, mode.value.whole, modified.value, sha.value))
        else Err(BadPostState)
  }

  function ParseMutation(value: Option<Json>, policy: Policy): Result<Mutation, JournalError> {
    if value.None? || !value.value.Obj? then Err(BadMutation) else
      var m := value.value.members;
      var id, call, path := TextOf(m, "mutationId"), TextOf(m, "toolCallId"), TextOf(m, "path");
      var sequence, operation, at := NumberOf(m, "authorizationSequence"), ParseOperation(TextOf(m, "operation")),
          NumberOf(m, "authorizedAt");
      if && id.Some? && ValidId(id.value)
         && TextOf(m, "runId") == Some(policy.runId) && TextOf(m, "taskId") == Some(policy.taskId)
         && TextOf(m, "attemptId") == Some(policy.attemptId)
         && NumberOf(m, "attemptNumber") == Some(Integer(policy.attemptNumber))
         && sequence.Some? && SafeNatural(sequence.value) && 1 <= sequence.value.whole <= MAX_MUTATIONS
         && call.Some? && ValidId(call.value) && operation.Some?
         && path.Some? && ValidPath(path.value)
         && TextOf(m, "authorizationStatus") == Some("authorized")
         && at.Some? && SafeNatural(at.value)
      then Ok(Mutation(id.value, policy.runId, policy.taskId, policy.attemptId, policy.attemptNumber,
                       sequence.value.whole, call.value, operation.value, path.value, at.value))
      else Err(BadMutation)
  }

  /** `${attemptId}:${sequence}`. */
  function MutationId(policy: Policy, sequence: nat): string {
    policy.attemptId + (":" + DigitsOf(sequence))
  }

  /** What the reading loop has gathered so far. */
  datatype Progress = Progress(events: seq<Event>, mutations: set<string>, observed: set<string>, expected: nat)

  const START: Progress := Progress([], {}, {}, 1)

  function AcceptAuthorized(policy: Policy, p: Progress, m: Mutation): Result<Progress, JournalError> {
    if m.authorizationSequence != p.expected then Err(AuthorizationGap)
    else if m.mutationId != MutationId(policy, m.authorizationSequence) then Err(ForeignId)
    else if m.mutationId in p.mutations then Err(DuplicateId)
    else Ok(Progress(p.events + [Authorized(|p.events| + 1, m)], p.mutations + {m.mutationId}, p.observed,
        p.expected + 1))
  }

  function AcceptObserved(p: Progress, m: seq<Member>): Result<Progress, JournalError> {
    var id := TextOf(m, "mutationId");
    if TextOf(m, "type") != Some("observed") || id.None? || !ValidId(id.value) ||
        id.value !in p.mutations then Err(NoAuthorization)
    else if id.value in p.observed then Err(RepeatedObservation)
    else
      var outcome := ParseOutcome(TextOf(m, "toolResult"));
      if outcome.None? then Err(BadOutcome) else
        var at := NumberOf(m, "observedAt");
        if at.None? || !SafeNatural(at.value) then Err(BadTimestamp) else
          var post := ParsePostState(Get(m, "postState"));
          if post.Err? then Err(post.error) else
            Ok(p.(events := p.events + [Observed(|p.events| + 1, id.value, outcome.value, at.value, post.value)],
                  observed := p.observed + {id.value}))
  }

  /** One record of the journal, read after those in `p`. */
  function ParseRecord(policy: Policy, p: Progress, line: string): Result<Progress, JournalError> {
    var value := Parse(line);
    if value.None? then Err(NotJson)
    else if !value.value.Obj? ||
        NumberOf(value.value.members, "journalVersion") != Some(Integer(VERSION)) then Err(BadVersion)
    else
      var m := value.value.members;
      if NumberOf(m, "journalSequence") != Some(Integer(|p.events| + 1)) then Err(SequenceGap)
      else if TextOf(m, "type") == Some("authorized") then
        var mutation := ParseMutation(Get(m, "mutation"), policy);
        if mutation.Err? then Err(mutation.error) else AcceptAuthorized(policy, p, mutation.value)
      else AcceptObserved(p, m)
  }

  /** The records in order, up to the first that is refused. */
  function Records(policy: Policy, lines: seq<string>): Result<Progress, JournalError> {
    if lines == [] then Ok(START) else
      var front := Records(policy, lines[..|lines| - 1]);
      if front.Err? then front else ParseRecord(policy, front.value, lines[|lines| - 1])
  }

  // ------------------------------------------------------------------ what records amount to

  ghost function MutationIds(events: seq<Event>): set<string> {
    set e | e in events && e.Authorized? :: e.mutation.mutationId
  }

  ghost function ObservedIds(events: seq<Event>): set<string> {
    set e | e in events && e.Observed? :: e.mutationId
  }

  /** The tool calls that have been authorized. */
  function CallIds(events: seq<Event>): set<string> {
    set e | e in events && e.Authorized? :: e.mutation.toolCallId
  }

  function Authorizations(events: seq<Event>): nat {
    if events == [] then 0 else
      Authorizations(events[..|events| - 1]) + if events[|events| - 1].Authorized? then 1 else 0
  }

  lemma AuthorizationsExtend(events: seq<Event>, e: Event)
    ensures Authorizations(events + [e]) == Authorizations(events) + if e.Authorized? then 1 else 0
  {
    assert (events + [e])[..|events|] == events;
  }

  ghost predicate IssuedBefore(policy: Policy, id: string, limit: nat) {
    exists k: nat :: 1 <= k < limit && id == MutationId(policy, k)
  }

  /** The loop's variables are functions of the events accepted so far, and those are numbered from 1. */
  ghost predicate Summary(policy: Policy, p: Progress) {
    && p.mutations == MutationIds(p.events) && p.observed == ObservedIds(p.events)
    && p.expected == Authorizations(p.events) + 1 && p.observed <= p.mutations
    && (forall i | 0 <= i < |p.events| :: p.events[i].journalSequence == i + 1)
    && (forall id | id in p.mutations :: ValidId(id) && IssuedBefore(policy, id, p.expected))
  }

  lemma IdsExtend(events: seq<Event>, e: Event)
    ensures MutationIds(events + [e]) == MutationIds(events) + if e.Authorized? then {e.mutation.mutationId} else {}
    ensures ObservedIds(events + [e]) == ObservedIds(events) + if e.Observed? then {e.mutationId} else {}
    ensures CallIds(events + [e]) == CallIds(events) + if e.Authorized? then {e.mutation.toolCallId} else {}
  {
    assert forall x | x in events + [e] :: x in events || x == e;
    assert forall x | x in events || x == e :: x in events + [e];
  }

  lemma ParsedMutationIsValid(policy: Policy, p: Progress, line: string)
    ensures var r := ParseRecord(policy, p, line); r.Ok? ==>
      |r.value.events| > |p.events| && var e := r.value.events[|p.events|];
      e.Authorized? ==> ValidId(e.mutation.mutationId)
  {
    hide Parse, Get, ValidId, MutationId, ParsePostState;
  }

  lemma RecordKeepsSummary(policy: Policy, p: Progress, line: string)
    requires Summary(policy, p)
    ensures var r := ParseRecord(policy, p, line); r.Ok? ==>
      Summary(policy, r.value) && |r.value.events| == |p.events| + 1 && p.events <= r.value.events
  {
    var r := ParseRecord(policy, p, line);
    hide Parse, Get, ValidId, MutationId, ParsePostState, Authorizations;
    if r.Ok? {
      var e := r.value.events[|p.events|];
      assert r.value.events == p.events + [e];
      IdsExtend(p.events, e);
      AuthorizationsExtend(p.events, e);
      forall id | id in r.value.mutations ensures ValidId(id) && IssuedBefore(policy, id, r.value.expected) {
        if id !in p.mutations {
          ParsedMutationIsValid(policy, p, line);
          assert id == MutationId(policy, p.expected);
        }
      }
    }
  }

  lemma {:induction false} RecordsSummarised(policy: Policy, lines: seq<string>)
    ensures var r := Records(policy, lines); r.Ok? ==> Summary(policy, r.value) && |r.value.events| == |lines|
  {
    if lines != [] {
      var n := |lines| - 1;
      RecordsSummarised(policy, lines[..n]);
      if Records(policy, lines[..n]).Ok? {
        RecordKeepsSummary(policy, Records(policy, lines[..n]).value, lines[n]);
      }
    }
  }

  /** Reading fewer lines succeeds as well, with the same first events. */
  lemma {:induction false} PrefixOfRecords(policy: Policy, lines: seq<string>, n: nat)
    requires n <= |lines| && Records(policy, lines).Ok?
    ensures Records(policy, lines[..n]).Ok?
    ensures Records(policy, lines[..n]).value.events <= Records(policy, lines).value.events
  {
    if n == |lines| {
      assert lines[..n] == lines;
    } else {
      var front := lines[..|lines| - 1];
      PrefixOfRecords(policy, front, n);
      RecordsSummarised(policy, front);
      RecordKeepsSummary(policy, Records(policy, front).value, lines[|lines| - 1]);
      assert front[..n] == lines[..n];
    }
  }

  // ------------------------------------------------------------------ printed records are read back

  /** Of members with different keys, each is found under its own. */
  lemma {:induction false} GetAt(members: seq<Member>, i: nat)
    requires i < |members| && forall j | i < j < |members| :: members[j].key != members[i].key
    ensures Get(members, members[i].key) == Some(members[i].value)
  {
    var n := |members| - 1;
    if i < n {
      assert members[n].key != members[i].key;
      GetAt(members[..n], i);
    }
  }

  lemma PostStateRoundTrip(post: PostState)
    ensures ParsePostState(Some(Obj(PostStateMembers(post)))) == if ValidPostState(post) then Ok(post)
        else Err(BadPostState)
  {
    var m := PostStateMembers(post);
    hide Get;
    if post.Confirmed? {
      ConfirmedFields(post);
      hide PostStateMembers, TextOf, NumberOf;
    } else {
      GetAt(m, 0); GetAt(m, 1);
    }
  }

  lemma ConfirmedFields(post: PostState)
    requires post.Confirmed?
    ensures var m := PostStateMembers(post);
      && TextOf(m, "status") == Some("confirmed") && TextOf(m, "fileType") == Some("regular")
      && NumberOf(m, "size") == Some(Integer(post.size)) && NumberOf(m, "mode") == Some(Integer(post.mode))
      && NumberOf(m, "modifiedAtMs") == Some(post.modifiedAtMs) && TextOf(m, "sha256") == Some(post.sha256)
  {
    var m := PostStateMembers(post);
    GetAt(m, 0); GetAt(m, 1); GetAt(m, 2); GetAt(m, 3); GetAt(m, 4); GetAt(m, 5);
    hide Get;
  }

  lemma MutationTexts(m: Mutation)
    ensures var f := MutationMembers(m);
      && TextOf(f, "mutationId") == Some(m.mutationId) && TextOf(f, "runId") == Some(m.runId)
      && TextOf(f, "taskId") == Some(m.taskId) && TextOf(f, "attemptId") == Some(m.attemptId)
      && TextOf(f, "toolCallId") == Some(m.toolCallId)
  {
    var f := MutationMembers(m);
    GetAt(f, 0); GetAt(f, 1); GetAt(f, 2); GetAt(f, 3); GetAt(f, 6);
    hide Get;
  }

  lemma MutationOther(m: Mutation)
    ensures var f := MutationMembers(m);
      && NumberOf(f, "attemptNumber") == Some(Integer(m.attemptNumber))
      && NumberOf(f, "authorizationSequence") == Some(Integer(m.authorizationSequence))
      && ParseOperation(TextOf(f, "operation")) == Some(m.operation)
      && TextOf(f, "path") == Some(m.path) && TextOf(f, "authorizationStatus") == Some("authorized")
      && NumberOf(f, "authorizedAt") == Some(m.authorizedAt)
  {
    var f := MutationMembers(m);
    GetAt(f, 4); GetAt(f, 5); GetAt(f, 7); GetAt(f, 8); GetAt(f, 9); GetAt(f, 10);
    hide Get;
  }

  /** What the reader demands of an authorization beyond the fields the policy fixes. */
  predicate LoadableMutation(m: Mutation) {
    && ValidId(m.mutationId) && 1 <= m.authorizationSequence <= MAX_MUTATIONS
    && ValidId(m.toolCallId) && ValidPath(m.path) && SafeNatural(m.authorizedAt)
  }

  lemma MutationRoundTrip(m: Mutation, policy: Policy)
    requires m.runId == policy.runId && m.taskId == policy.taskId && m.attemptId == policy.attemptId
    requires m.attemptNumber == policy.attemptNumber
    ensures ParseMutation(Some(Obj(MutationMembers(m))), policy) == if LoadableMutation(m) then Ok(m)
        else Err(BadMutation)
  {
    MutationTexts(m);
    MutationOther(m);
    hide Get, TextOf, NumberOf, MutationMembers, ValidId, ValidPath, ParseOperation;
  }

  /** `e` may be appended after `events`: its number is the next one and its fields are the writer's. */
  ghost predicate Follows(policy: Policy, events: seq<Event>, e: Event) {
    && e.journalSequence == |events| + 1
    && match e
       case Authorized(_, m) =>
         && m.authorizationSequence == Authorizations(events) + 1 <= MAX_MUTATIONS
         && m.mutationId == MutationId(policy, m.authorizationSequence)
         && m.runId == policy.runId && m.taskId == policy.taskId && m.attemptId == policy.attemptId
         && m.attemptNumber == policy.attemptNumber
         && ValidId(m.toolCallId) && m.toolCallId !in CallIds(events) && ValidPath(m.path)
       case Observed(_, id, _, _, post) =>
         id in MutationIds(events) && ValidPostState(post)
  }

  /** The demands of the reader that the writer does not check. */
  ghost predicate Readable(events: seq<Event>, e: Event) {
    match e
    case Authorized(_, m) => Units(m.mutationId) <= MAX_ID_CHARS && SafeNatural(m.authorizedAt)
    case Observed(_, id, _, at, _) => id !in ObservedIds(events) && SafeNatural(at)
  }

  lemma MutationIdIsPlain(policy: Policy, n: nat)
    requires policy.Valid()
    ensures NoControls(MutationId(policy, n)) && Units(MutationId(policy, n)) > 0
  {
    assert NoControls(":" + DigitsOf(n)) by {
      hide DigitsOf;
    }
    hide DigitsOf, Units, IsControl;
  }

  /** Different sequence numbers give different ids. */
  lemma MutationIdInjective(policy: Policy, m: nat, n: nat)
    requires MutationId(policy, m) == MutationId(policy, n)
    ensures m == n
  {
    var a, b := MutationId(policy, m), MutationId(policy, n);
    Splits(policy.attemptId, ":" + DigitsOf(m));
    Splits(policy.attemptId, ":" + DigitsOf(n));
    Splits(":", DigitsOf(m));
    Splits(":", DigitsOf(n));
    DigitsRoundTrip(m);
    DigitsRoundTrip(n);
    hide DigitsOf, ValueOf;
  }

  lemma EventHeader(e: Event)
    ensures var f := EventMembers(e);
      && NumberOf(f, "journalVersion") == Some(Integer(VERSION))
      && NumberOf(f, "journalSequence") == Some(Integer(e.journalSequence))
      && TextOf(f, "type") == Some(if e.Authorized? then "authorized" else "observed")
  {
    var f := EventMembers(e);
    GetAt(f, 0); GetAt(f, 1); GetAt(f, 2);
    hide Get, MutationMembers, PostStateMembers;
  }

  lemma AuthorizedBody(e: Event)
    requires e.Authorized?
    ensures Get(EventMembers(e), "mutation") == Some(Obj(MutationMembers(e.mutation)))
  {
    GetAt(EventMembers(e), 3);
    hide Get, MutationMembers;
  }

  lemma ObservedBody(e: Event)
    requires e.Observed?
    ensures var f := EventMembers(e);
      && TextOf(f, "mutationId") == Some(e.mutationId) && ParseOutcome(TextOf(f, "toolResult")) == Some(e.toolResult)
      && NumberOf(f, "observedAt") == Some(e.observedAt)
      && Get(f, "postState") == Some(Obj(PostStateMembers(e.postState)))
  {
    var f := EventMembers(e);
    GetAt(f, 3); GetAt(f, 4); GetAt(f, 5); GetAt(f, 6);
    hide Get, PostStateMembers;
  }

  /**
    What the writer prints is read back as the same event exactly when it meets the demands the
    writer does not check.
   */
  lemma RecordRoundTrip(policy: Policy, p: Progress, e: Event)
    requires policy.Valid() && Summary(policy, p) && Follows(policy, p.events, e)
    ensures var r := ParseRecord(policy, p, PrintEvent(e));
      (r.Ok? <==> Readable(p.events, e)) && (r.Ok? ==> r.value.events == p.events + [e])
  {
    RoundTrip(Obj(EventMembers(e)));
    EventHeader(e);
    hide Get, EventMembers, MutationMembers, PostStateMembers, Parse, Print, MutationId, Authorizations;
    if e.Authorized? {
      AuthorizedRoundTrip(policy, p, e);
    } else {
      ObservedRoundTrip(policy, p, e);
    }
  }

  lemma AuthorizedRoundTrip(policy: Policy, p: Progress, e: Event)
    requires policy.Valid() && Summary(policy, p) && Follows(policy, p.events, e) && e.Authorized?
    ensures var mutation := ParseMutation(Get(EventMembers(e), "mutation"), policy);
      && (mutation.Ok? <==> Readable(p.events, e))
      && (mutation.Ok? ==> (AcceptAuthorized(policy, p, mutation.value) ==
            Ok(Progress(p.events + [e], p.mutations + {e.mutation.mutationId}, p.observed, p.expected + 1))))
  {
    var m := e.mutation;
    AuthorizedBody(e);
    MutationRoundTrip(m, policy);
    MutationIdIsPlain(policy, m.authorizationSequence);
    if m.mutationId in p.mutations {
      var k: nat :| 1 <= k < p.expected && m.mutationId == MutationId(policy, k);
      MutationIdInjective(policy, k, m.authorizationSequence);
      assert false;
    }
    hide Get, EventMembers, MutationMembers, ParseMutation, MutationId, Authorizations, Units, NoControls, ValidPath;
  }

  lemma ObservedRoundTrip(policy: Policy, p: Progress, e: Event)
    requires policy.Valid() && Summary(policy, p) && Follows(policy, p.events, e) && e.Observed?
    requires TextOf(EventMembers(e), "type") == Some("observed")
    ensures var r := AcceptObserved(p, EventMembers(e));
      (r.Ok? <==> Readable(p.events, e)) && (r.Ok? ==> r.value.events == p.events + [e])
  {
    ObservedBody(e);
    PostStateRoundTrip(e.postState);
    hide Get, TextOf, NumberOf, EventMembers, PostStateMembers, ParsePostState, ParseOutcome, ValidId, Authorizations;
  }
}
