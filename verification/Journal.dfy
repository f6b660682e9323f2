/**
  The external mutation journal: an append-only file with one record per line, its writer, its reader
  and what they promise each other (packages/permissions/src/external-mutation-journal.ts).
 */
module Journal {
  import opened Wrappers
  import opened Utf8
  import opened Json
  import opened JournalLines
  import opened JournalRecords

  const MAX_JOURNAL_BYTES: nat := 2 * 1024 * 1024

  /** The events in a file, or why it is refused. */
  function Read(policy: Policy, content: seq<byte>, allowIncompleteTail: bool): Result<seq<Event>, JournalError> {
    if |content| > MAX_JOURNAL_BYTES then Err(TooLarge)
    else if !Complete(content) && !allowIncompleteTail then Err(Incomplete)
    else
      var r := Records(policy, Lines(content));
      if r.Err? then Err(r.error) else Ok(r.value.events)
  }

  // ------------------------------------------------------------------ reading

  /** Reading stops at the first record that is refused. */
  lemma {:induction false} FirstRefusal(policy: Policy, lines: seq<string>, n: nat)
    requires n <= |lines| && Records(policy, lines[..n]).Err?
    ensures Records(policy, lines) == Records(policy, lines[..n])
  {
    if n == |lines| {
      assert lines[..n] == lines;
    } else {
      var front := lines[..|lines| - 1];
      assert front[..n] == lines[..n];
      FirstRefusal(policy, front, n);
    }
  }

  method ParseExternalMutationJournal(policy: Policy, content: seq<byte>, allowIncompleteTail: bool)
      returns (r: Result<seq<Event>, JournalError>)
    ensures r == Read(policy, content, allowIncompleteTail)
  {
    hide ParseRecord, Decode, Split, NonEmpty, Cut;
    if |content| > MAX_JOURNAL_BYTES {
      return Err(TooLarge);
    }
    var text := Decode(content);
    if |text| > 0 && text[|text| - 1] != '\n' {
      if !allowIncompleteTail {
        return Err(Incomplete);
      }
      text := Cut(text);
    } else {
      CutIsIdle(text);
    }
    var lines := NonEmpty(Split(text));
    var p := START;
    assert lines[..0] == [];
    for i := 0 to |lines|
      invariant Records(policy, lines[..i]) == Ok(p)
    {
      assert lines[..i + 1][..i] == lines[..i];
      var next := ParseRecord(policy, p, lines[i]);
      if next.Err? {
        FirstRefusal(policy, lines, i + 1);
        return Err(next.error);
      }
      p := next.value;
    }
    assert lines[..|lines|] == lines;
    r := Ok(p.events);
  }

  lemma CutIsIdle(text: string)
    requires text == "" || text[|text| - 1] == '\n'
    ensures Cut(text) == text
  {
  }

  /** While a valid journal grows, each earlier content is valid and holds the first of the later events. */
  lemma GrowingJournal(policy: Policy, content: seq<byte>, more: seq<byte>)
    requires Read(policy, content + more, true).Ok?
    ensures Read(policy, content, true).Ok?
    ensures Read(policy, content, true).value <= Read(policy, content + more, true).value
  {
    GrowthOnlyAdds(content, more);
    hide Lines, Records, Complete;
    var all := Lines(content + more);
    PrefixOfRecords(policy, all, |Lines(content)|);
    assert all[..|Lines(content)|] == Lines(content);
  }

  /** The events of a valid journal are numbered 1, 2, 3, and so on. */
  lemma EventsAreNumbered(policy: Policy, content: seq<byte>, lenient: bool)
    requires Read(policy, content, lenient).Ok?
    ensures var events := Read(policy, content, lenient).value;
      forall i | 0 <= i < |events| :: events[i].journalSequence == i + 1
  {
    RecordsSummarised(policy, Lines(content));
  }

  // ------------------------------------------------------------------ writing

  /** `${JSON.stringify(event)}\n` as bytes. */
  function EventBytes(e: Event): seq<byte> {
    Encode(PrintEvent(e) + "\n")
  }

  function BytesOf(events: seq<Event>): seq<byte> {
    if events == [] then [] else BytesOf(events[..|events| - 1]) + EventBytes(events[|events| - 1])
  }

  lemma EventIsOneLine(e: Event)
    ensures PrintEvent(e) != "" && '\n' !in PrintEvent(e) && EventBytes(e) == LineBytes(PrintEvent(e))
    ensures EventBytes(e) != []
  {
    PrintIsOneLine(Obj(EventMembers(e)));
    EncodedLine(PrintEvent(e));
  }

  /** `written` is what writers append behind `existing`. */
  ghost predicate History(policy: Policy, existing: seq<Event>, written: seq<Event>) {
    written == [] ||
    var n := |written| - 1;
    History(policy, existing, written[..n]) && Follows(policy, existing + written[..n], written[n])
  }

  /** Every written event meets the demands that only the reader checks. */
  ghost predicate AllReadable(existing: seq<Event>, written: seq<Event>) {
    written == [] ||
    var n := |written| - 1;
    AllReadable(existing, written[..n]) && Readable(existing + written[..n], written[n])
  }

  /** Appending one event to a readable file. */
  lemma AppendedEvent(policy: Policy, content: seq<byte>, p: Progress, e: Event)
    requires policy.Valid() && Complete(content) && Records(policy, Lines(content)) == Ok(p) &&
        Follows(policy, p.events, e)
    ensures Complete(content + EventBytes(e))
    ensures var r := Records(policy, Lines(content + EventBytes(e)));
      (r.Ok? <==> Readable(p.events, e)) && (r.Ok? ==> r.value.events == p.events + [e])
  {
    EventIsOneLine(e);
    hide Lines, Complete, ParseRecord, PrintEvent, LineBytes, EventBytes, Follows, Readable;
    AppendLine(content, PrintEvent(e));
    RecordsSummarised(policy, Lines(content));
    RecordRoundTrip(policy, p, e);
    assert (Lines(content) + [PrintEvent(e)])[..|Lines(content)|] == Lines(content);
  }

  /** Appending anything to an unreadable file leaves it unreadable. */
  lemma StaysUnreadable(policy: Policy, content: seq<byte>, more: seq<byte>)
    requires Records(policy, Lines(content)).Err?
    ensures Records(policy, Lines(content + more)).Err?
  {
    GrowthOnlyAdds(content, more);
    hide Lines, Records;
    var all := Lines(content + more);
    assert all[..|Lines(content)|] == Lines(content);
    FirstRefusal(policy, all, |Lines(content)|);
  }

  lemma {:induction false} HistoryReads(policy: Policy, start: seq<byte>, existing: seq<Event>, written: seq<Event>)
    requires policy.Valid() && Complete(start) && History(policy, existing, written)
    requires Records(policy, Lines(start)).Ok? && Records(policy, Lines(start)).value.events == existing
    ensures Complete(start + BytesOf(written))
    ensures var r := Records(policy, Lines(start + BytesOf(written)));
      (r.Ok? <==> AllReadable(existing, written)) && (r.Ok? ==> r.value.events == existing + written)
  {
    hide Lines, Complete, Records, EventBytes, Follows, Readable;
    if written == [] {
      assert start + BytesOf(written) == start && existing + written == existing;
    } else {
      var n := |written| - 1;
      var front, e := written[..n], written[n];
      HistoryReads(policy, start, existing, front);
      var content := start + BytesOf(front);
      assert start + BytesOf(written) == content + EventBytes(e);
      EventIsOneLine(e);
      CompleteAfter(content, e);
      if Records(policy, Lines(content)).Ok? {
        AppendedEvent(policy, content, Records(policy, Lines(content)).value, e);
        assert existing + written == existing + front + [e];
      } else {
        StaysUnreadable(policy, content, EventBytes(e));
      }
    }
  }

  lemma CompleteAfter(content: seq<byte>, e: Event)
    requires Complete(content)
    ensures Complete(content + EventBytes(e))
  {
    EventIsOneLine(e);
    AppendLine(content, PrintEvent(e));
  }

  /**
    The journal round trip. The strict reader accepts what writers appended, and returns exactly
    those events in order, if and only if the file is within its size limit, every mutation id fits,
    every time is a valid timestamp and no mutation was observed twice.
   */
  lemma WrittenIsRead(policy: Policy, start: seq<byte>, written: seq<Event>)
    requires policy.Valid() && Read(policy, start, false).Ok? &&
        History(policy, Read(policy, start, false).value, written)
    ensures var existing := Read(policy, start, false).value;
      var r := Read(policy, start + BytesOf(written), false);
      && (r.Ok? <==> |start + BytesOf(written)| <= MAX_JOURNAL_BYTES && AllReadable(existing, written))
      && (r.Ok? ==> r.value == existing + written)
  {
    HistoryReads(policy, start, Read(policy, start, false).value, written);
    hide Lines, Complete, Records, AllReadable, History, BytesOf;
  }

  /**
    A failed append. When some prefix of a record's bytes has reached the file, a lenient reader still
    sees the committed events, and the record itself exactly when its newline got there.
   */
  lemma TornAppend(policy: Policy, start: seq<byte>, written: seq<Event>, e: Event, torn: seq<byte>)
    requires policy.Valid() && Read(policy, start, false).Ok? && torn <= EventBytes(e)
    requires History(policy, Read(policy, start, false).value, written + [e])
    ensures var existing, there := Read(policy, start, false).value, if torn == EventBytes(e) then written + [e]
        else written;
      var r := Read(policy, start + BytesOf(written) + torn, true);
      && (r.Ok? <==> |start + BytesOf(written) + torn| <= MAX_JOURNAL_BYTES && AllReadable(existing, there))
      && (r.Ok? ==> r.value == existing + there)
  {
    hide Lines, Complete, Records, BytesOf, EventBytes, History, AllReadable;
    if torn == EventBytes(e) {
      WholeAppend(policy, start, written, e);
      WrittenIsReadLeniently(policy, start, written + [e]);
    } else {
      PartAppend(policy, start, written, e, torn);
    }
  }

  lemma WholeAppend(policy: Policy, start: seq<byte>, written: seq<Event>, e: Event)
    ensures start + BytesOf(written) + EventBytes(e) == start + BytesOf(written + [e])
  {
    assert (written + [e])[..|written|] == written;
    hide EventBytes;
  }

  lemma WrittenIsReadLeniently(policy: Policy, start: seq<byte>, written: seq<Event>)
    requires policy.Valid() && Read(policy, start, false).Ok? &&
        History(policy, Read(policy, start, false).value, written)
    ensures var existing := Read(policy, start, false).value;
      var r := Read(policy, start + BytesOf(written), true);
      && (r.Ok? <==> |start + BytesOf(written)| <= MAX_JOURNAL_BYTES && AllReadable(existing, written))
      && (r.Ok? ==> r.value == existing + written)
  {
    HistoryReads(policy, start, Read(policy, start, false).value, written);
    hide Lines, Complete, Records, AllReadable, History, BytesOf;
  }

  lemma PartAppend(policy: Policy, start: seq<byte>, written: seq<Event>, e: Event, torn: seq<byte>)
    requires policy.Valid() && Read(policy, start, false).Ok? && torn < EventBytes(e)
    requires History(policy, Read(policy, start, false).value, written + [e])
    ensures var existing := Read(policy, start, false).value;
      var r := Read(policy, start + BytesOf(written) + torn, true);
      && (r.Ok? <==> |start + BytesOf(written) + torn| <= MAX_JOURNAL_BYTES && AllReadable(existing, written))
      && (r.Ok? ==> r.value == existing + written)
  {
    assert (written + [e])[..|written|] == written;
    HistoryReads(policy, start, Read(policy, start, false).value, written);
    EventIsOneLine(e);
    hide Lines, Complete, Records, BytesOf, EventBytes, LineBytes, PrintEvent, History, AllReadable;
    TornLine(start + BytesOf(written), PrintEvent(e), torn);
  }

  // ------------------------------------------------------------------ the demands only the reader checks

  lemma {:induction false} UnitsAppend(a: string, b: string)
    ensures Units(a + b) == Units(a) + Units(b)
  {
    if b == "" {
      assert a + b == a;
    } else {
      var n := |b| - 1;
      assert (a + b)[..|a + b| - 1] == a + b[..n];
      UnitsAppend(a, b[..n]);
    }
  }

  lemma {:induction false} DigitUnits(s: string)
    requires AllDigits(s)
    ensures Units(s) == |s|
  {
    if s != "" {
      DigitUnits(s[..|s| - 1]);
    }
  }

  lemma DigitCount(n: nat)
    requires 1 <= n <= MAX_MUTATIONS
    ensures |DigitsOf(n)| == if n < 10 then 1 else if n < 100 then 2 else 3
  {
    assert n / 10 < 10 ==> |DigitsOf(n / 10)| == 1;
    assert n / 10 / 10 < 10 && |DigitsOf(n / 10 / 10)| == 1;
  }

  /**
    The writer accepts attempt ids of up to 256 characters, but the reader wants that of the whole
    mutation id: an authorization is readable exactly when its digits and the colon still fit.
   */
  lemma MutationIdFits(policy: Policy, n: nat)
    requires 1 <= n <= MAX_MUTATIONS
    ensures Units(MutationId(policy, n)) <= MAX_ID_CHARS <==>
            Units(policy.attemptId) <= if n < 10 then 254 else if n < 100 then 253 else 252
  {
    UnitsAppend(policy.attemptId, ":" + DigitsOf(n));
    UnitsAppend(":", DigitsOf(n));
    DigitUnits(DigitsOf(n));
    DigitCount(n);
    assert Units(":") == 1 by {
      assert Units("") == 0 && ":"[..0] == "";
    }
  }

  lemma {:induction false} LettersAreValid(n: nat)
    ensures Units(seq(n, _ => 'a')) == n && NoControls(seq(n, _ => 'a'))
  {
    if n > 0 {
      LettersAreValid(n - 1);
      assert seq(n, _ => 'a')[..n - 1] == seq(n - 1, _ => 'a');
    }
  }

  /** So a valid policy can let the writer commit a record that no reader accepts. */
  lemma LongAttemptIdIsRefused(policy: Policy, toolCallId: string, path: string)
    requires policy == Policy("r", "t", seq(255, _ => 'a'), 1) && ValidId(toolCallId) && ValidPath(path)
    ensures policy.Valid()
    ensures var e := Authorized(1,
        Mutation(MutationId(policy, 1), "r", "t", policy.attemptId, 1, 1, toolCallId, Write, path, Integer(0)));
      History(policy, [], [e]) && Read(policy, [], false) == Ok([]) && Read(policy, BytesOf([e]), false).Err?
  {
    LettersAreValid(255);
    OneLetter("r");
    OneLetter("t");
    var e := Authorized(1, Mutation(MutationId(policy, 1), "r", "t", policy.attemptId, 1, 1, toolCallId, Write, path,
        Integer(0)));
    var none: seq<Event> := [];
    MutationIdFits(policy, 1);
    assert policy.Valid() && !Readable(none, e);
    hide ValidId, ValidPath, MutationId, Units;
    assert Follows(policy, none, e);
    hide Follows, Readable, PrintEvent, Policy.Valid;
    FirstRecord(policy, e);
  }

  /** A single record behind an empty file. */
  lemma FirstRecord(policy: Policy, e: Event)
    requires policy.Valid() && Follows(policy, [], e)
    ensures History(policy, [], [e]) && Read(policy, [], false) == Ok([])
    ensures Read(policy, BytesOf([e]), false).Ok? ==> Readable([], e)
  {
    var none: seq<Event> := [];
    NoLines([]);
    assert [e][..0] == none && none + none == none && [] + BytesOf([e]) == BytesOf([e]);
    hide Lines, PrintEvent, Follows, Readable, EventBytes, Policy.Valid;
    assert Read(policy, [], false) == Ok([]);
    WrittenIsRead(policy, [], [e]);
  }

  lemma OneLetter(s: string)
    requires |s| == 1 && 'a' <= s[0] <= 'z'
    ensures ValidId(s)
  {
    assert s[..0] == "";
  }
}
