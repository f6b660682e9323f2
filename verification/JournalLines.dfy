/**
  How a journal file falls into records: complete lines, an unterminated tail left by a crash or a
  writer at work, and how both behave while the file grows
  (packages/permissions/src/external-mutation-journal.ts).
 */
module JournalLines {
  import opened Utf8

  /** `text.split("\n")`. */
  function Split(text: string): (parts: seq<string>)
    ensures parts != []
    decreases |text|
  {
    if text == "" then [""]
    else if text[0] == '\n' then [""] + Split(text[1..])
    else
      var rest := Split(text[1..]);
      [[text[0]] + rest[0]] + rest[1..]
  }

  /** `.filter((line) => line.length > 0)`. */
  function NonEmpty(parts: seq<string>): seq<string> {
    if parts == [] then [] else
      (if parts[0] == "" then [] else [parts[0]]) + NonEmpty(parts[1..])
  }

  /** `text.slice(0, text.lastIndexOf("\n") + 1)`. */
  function Cut(text: string): string {
    if text == "" || text[|text| - 1] == '\n' then text else Cut(text[..|text| - 1])
  }

  /** The records of a file whose tail may be unterminated. */
  function Lines(content: seq<byte>): seq<string> {
    NonEmpty(Split(Cut(Decode(content))))
  }

  predicate Complete(content: seq<byte>) {
    var text := Decode(content);
    text == "" || text[|text| - 1] == '\n'
  }

  // ------------------------------------------------------------------ text

  lemma Assoc<T>(a: seq<T>, b: seq<T>, c: seq<T>)
    ensures a + b + c == a + (b + c)
  {
  }

  lemma {:induction false} SplitAtBreak(a: string, b: string)
    ensures Split(a + "\n" + b) == Split(a) + Split(b)
  {
    var all := a + "\n" + b;
    if a == "" {
      assert all == "\n" + b && all[1..] == b;
      assert Split(all) == [""] + Split(b);
    } else {
      SplitAtBreak(a[1..], b);
      assert all[0] == a[0] && all[1..] == a[1..] + "\n" + b;
      JoinFirst(a[0], Split(a[1..]), Split(b));
    }
  }

  lemma JoinFirst(c: char, p: seq<string>, q: seq<string>)
    requires p != []
    ensures [""] + (p + q) == [""] + p + q
    ensures [[c] + (p + q)[0]] + (p + q)[1..] == [[c] + p[0]] + p[1..] + q
  {
  }

  lemma {:induction false} NonEmptyAppends(p: seq<string>, q: seq<string>)
    ensures NonEmpty(p + q) == NonEmpty(p) + NonEmpty(q)
  {
    if p == [] {
      assert p + q == q;
    } else {
      assert (p + q)[0] == p[0] && (p + q)[1..] == p[1..] + q;
      NonEmptyAppends(p[1..], q);
    }
  }

  lemma {:induction false} OneLine(line: string)
    requires '\n' !in line
    ensures Split(line) == [line]
  {
    if line != "" {
      OneLine(line[1..]);
      assert Split(line) == [[line[0]] + line[1..]] + [] && [line[0]] + line[1..] == line;
    }
  }

  /** A cut after a break leaves the text before it alone. */
  lemma {:induction false} CutAtBreak(a: string, tail: string)
    requires '\n' !in tail
    ensures Cut(a + "\n" + tail) == a + "\n"
  {
    var all := a + "\n" + tail;
    if tail == "" {
      assert all == a + "\n";
    } else {
      var n := |tail| - 1;
      assert all[|all| - 1] == tail[n] && tail[n] in tail;
      assert all[..|all| - 1] == a + "\n" + tail[..n];
      CutAtBreak(a, tail[..n]);
    }
  }

  lemma {:induction false} CutWithoutBreak(text: string)
    requires '\n' !in text
    ensures Cut(text) == ""
  {
    if text != "" {
      assert text[|text| - 1] in text;
      CutWithoutBreak(text[..|text| - 1]);
    }
  }

  // ------------------------------------------------------------------ bytes

  /** Two stretches of a file with a newline byte between them. */
  ghost function Join(a: seq<byte>, b: seq<byte>): seq<byte> {
    a + [NEWLINE] + b
  }

  lemma Regroup(a: seq<byte>, b: seq<byte>, c: seq<byte>)
    ensures Join(a, Join(b, c)) == Join(Join(a, b), c)
    ensures Join(a, b) + c == Join(a, b + c)
  {
  }

  lemma JoinedAt(content: seq<byte>, k: nat)
    requires 0 < k <= |content| && content[k - 1] == NEWLINE
    ensures content == Join(content[..k - 1], content[k..])
  {
  }

  /** The position behind the last newline byte, or 0. */
  function Behind(content: seq<byte>): (k: nat)
    ensures k <= |content| && NEWLINE !in content[k..]
    ensures k > 0 ==> content[k - 1] == NEWLINE
  {
    if content == [] || content[|content| - 1] == NEWLINE then |content|
    else
      var k := Behind(content[..|content| - 1]);
      assert content[k..] == content[..|content| - 1][k..] + [content[|content| - 1]];
      k
  }

  /** Every file is one unterminated stretch, or lines followed by one. */
  lemma Shape(content: seq<byte>) returns (front: seq<byte>, tail: seq<byte>)
    ensures NEWLINE !in tail && (content == tail || content == Join(front, tail))
  {
    var k := Behind(content);
    tail, front := content[k..], [];
    if k > 0 {
      front := content[..k - 1];
      JoinedAt(content, k);
    }
  }

  lemma EmptyText()
    ensures NonEmpty(Split("")) == []
  {
  }

  lemma LinesOf(a: seq<byte>, tail: seq<byte>)
    requires NEWLINE !in tail
    ensures Lines(Join(a, tail)) == NonEmpty(Split(Decode(a)))
  {
    NoNewLine(tail);
    DecodeLines(a, tail);
    hide Split, NonEmpty, Decode, Cut;
    CutAtBreak(Decode(a), Decode(tail));
    EmptyText();
    SplitAtBreak(Decode(a), "");
    NonEmptyAppends(Split(Decode(a)), Split(""));
    assert Decode(a) + "\n" + "" == Decode(a) + "\n";
  }

  lemma BothSides(a: seq<byte>, mid: seq<byte>)
    ensures NonEmpty(Split(Decode(Join(a, mid)))) == NonEmpty(Split(Decode(a))) + NonEmpty(Split(Decode(mid)))
  {
    DecodeLines(a, mid);
    hide Split, NonEmpty, Decode;
    SplitAtBreak(Decode(a), Decode(mid));
    NonEmptyAppends(Split(Decode(a)), Split(Decode(mid)));
  }

  /** A file without a newline has no records. */
  lemma NoLines(content: seq<byte>)
    requires NEWLINE !in content
    ensures Lines(content) == []
  {
    NoNewLine(content);
    CutWithoutBreak(Decode(content));
  }

  /** The records before a newline byte and those behind it. */
  lemma LinesAtBreak(a: seq<byte>, b: seq<byte>)
    ensures Lines(Join(a, b)) == NonEmpty(Split(Decode(a))) + Lines(b)
  {
    var mid, tail := Shape(b);
    hide Lines, Split, NonEmpty, Decode, Join;
    if b == tail {
      NoLines(b);
      LinesOf(a, b);
    } else {
      Regroup(a, mid, tail);
      LinesOf(mid, tail);
      LinesOf(Join(a, mid), tail);
      BothSides(a, mid);
    }
  }

  /** Whatever bytes are added, the records already complete stay what they are. */
  lemma GrowthOnlyAdds(content: seq<byte>, more: seq<byte>)
    ensures Lines(content) <= Lines(content + more)
  {
    var front, tail := Shape(content);
    hide Lines, Join, Decode, Split, NonEmpty;
    NoLines(tail);
    if content != tail {
      Regroup(front, tail, more);
      LinesAtBreak(front, tail);
      LinesAtBreak(front, tail + more);
    }
  }

  // ------------------------------------------------------------------ appending a record

  ghost function LineBytes(line: string): seq<byte> {
    Join(Encode(line), [])
  }

  /** The bytes of `${line}\n`. */
  lemma EncodedLine(line: string)
    ensures Encode(line + "\n") == LineBytes(line)
  {
    EncodeAppends(line, "\n");
    assert Encode("\n") == [NEWLINE];
  }

  lemma LineAlone(line: string)
    requires line != "" && '\n' !in line
    ensures Lines(LineBytes(line)) == [line]
  {
    RoundTrip(line);
    OneLine(line);
    LinesOf(Encode(line), []);
    assert NonEmpty([line]) == [line];
  }

  /** The text of a file ends in a line break exactly when its bytes do. */
  ghost predicate Terminated(content: seq<byte>) {
    content == [] || exists front :: content == Join(front, [])
  }

  lemma TerminatedIsComplete(content: seq<byte>)
    requires Terminated(content)
    ensures Complete(content)
  {
    if content != [] {
      var front :| content == Join(front, []);
      DecodeLines(front, []);
    }
  }

  lemma CompleteIsTerminated(content: seq<byte>)
    requires Complete(content)
    ensures Terminated(content)
  {
    var front, tail := Shape(content);
    NoNewLine(tail);
    if tail != [] {
      var end := Decode(tail);
      assert end[|end| - 1] in end;
      if content != tail {
        DecodeLines(front, tail);
      }
    }
  }

  /** Appending one line to a complete file adds exactly that record. */
  lemma AppendLine(content: seq<byte>, line: string)
    requires Complete(content) && line != "" && '\n' !in line
    ensures Lines(content + LineBytes(line)) == Lines(content) + [line] && Complete(content + LineBytes(line))
  {
    CompleteIsTerminated(content);
    LineAlone(line);
    hide Lines, Complete, Decode, Encode, NonEmpty, Split, Join;
    if content == [] {
      NoLines(content);
      assert content + LineBytes(line) == LineBytes(line);
    } else {
      var front :| content == Join(front, []);
      Regroup(front, [], LineBytes(line));
      assert [] + LineBytes(line) == LineBytes(line);
      LinesOf(front, []);
      LinesAtBreak(front, LineBytes(line));
      Regroup(front, Encode(line), []);
    }
    TerminatedIsComplete(content + LineBytes(line));
  }

  /** A torn line adds no record: its newline is its last byte. */
  lemma TornLine(content: seq<byte>, line: string, torn: seq<byte>)
    requires Complete(content) && '\n' !in line && torn < LineBytes(line)
    ensures Lines(content + torn) == Lines(content)
  {
    CompleteIsTerminated(content);
    TornHasNoBreak(line, torn);
    hide Lines, Complete, Decode, Encode, NonEmpty, Split, Join, LineBytes;
    NoLines(torn);
    if content == [] {
      NoLines(content);
      assert content + torn == torn;
    } else {
      var front :| content == Join(front, []);
      Regroup(front, [], torn);
      assert [] + torn == torn;
      LinesOf(front, []);
      LinesOf(front, torn);
    }
  }

  lemma TornHasNoBreak(line: string, torn: seq<byte>)
    requires '\n' !in line && torn < LineBytes(line)
    ensures NEWLINE !in torn
  {
    EncodedHasNoNewLine(line);
    forall i | 0 <= i < |torn| ensures torn[i] != NEWLINE {
      assert torn[i] == Encode(line)[i] && Encode(line)[i] in Encode(line);
    }
  }
}
