/**
  Lexing shell text into commands, and the expansion of a lexed word
  (packages/permissions/src/permissions.ts).
 */
module ShellLexers {
  import opened Wrappers

  datatype Part = Part(text: string, expandable: bool)

  type Word = seq<Part>

  datatype Command = Command(words: seq<Word>, operatorBefore: Option<string>)

  datatype Heredoc = Heredoc(delimiter: string, stripTabs: bool)

  /** `shellWordText`. */
  function WordText(word: Word): string {
    if word == [] then "" else WordText(word[..|word| - 1]) + word[|word| - 1].text
  }

  // ------------------------------------------------------------------ the lexer's state

  datatype Lex = Lex(
    commands: seq<Command>, words: seq<Word>, parts: seq<Part>, wordStarted: bool, quote: Option<char>,
    operatorBefore: Option<string>, heredocTarget: Option<bool>, heredocs: seq<Heredoc>)
  {
    function Append(text: string, expandable: bool): Lex {
      var n := |parts|;
      if n > 0 && parts[n - 1].expandable == expandable
      then this.(wordStarted := true, parts := parts[..n - 1] + [Part(parts[n - 1].text + text, expandable)])
      else this.(wordStarted := true, parts := parts + [Part(text, expandable)])
    }

    function FinishWord(): Lex {
      if !wordStarted then this
      else if heredocTarget.Some? then
        this.(heredocs := heredocs + [Heredoc(WordText(parts), heredocTarget.value)], heredocTarget := None,
              parts := [], wordStarted := false)
      else this.(words := words + [parts], parts := [], wordStarted := false)
    }

    function FinishCommand(next: Option<string>): Lex {
      var l := FinishWord();
      l.(commands := if l.words == [] then l.commands else l.commands + [Command(l.words, l.operatorBefore)],
         words := [], operatorBefore := next)
    }
  }

  const INITIAL: Lex := Lex([], [], [], false, None, None, None, [])

  // ------------------------------------------------------------------ characters and lines

  /** The class `\s` of regular expressions. */
  predicate IsSpace(c: char) {
    var n := c as int;
    || 9 <= n <= 13 || n == 32 || n == 0xA0 || n == 0x1680 || 0x2000 <= n <= 0x200A || n == 0x2028 || n == 0x2029
    || n == 0x202F || n == 0x205F || n == 0x3000 || n == 0xFEFF
  }

  predicate IsOperator(c: char) {
    c == ';' || c == '|' || c == '&' || c == '(' || c == ')'
  }

  /** The text up to the first newline. */
  function Line(s: string): (line: string)
    ensures line <= s
  {
    if s == "" || s[0] == '\n' then "" else [s[0]] + Line(s[1..])
  }

  function WithoutReturn(line: string): string {
    if line != "" && line[|line| - 1] == '\r' then line[..|line| - 1] else line
  }

  function WithoutTabs(line: string): string {
    if line != "" && line[0] == '\t' then WithoutTabs(line[1..]) else line
  }

  /** Behind the body of one here-document. */
  function SkipBody(h: Heredoc, rest: string): (after: string)
    ensures |after| <= |rest|
    decreases |rest|
  {
    if rest == "" then "" else
      var line := Line(rest);
      var after := if |line| == |rest| then "" else rest[|line| + 1..];
      var stripped := WithoutReturn(line);
      if (if h.stripTabs then WithoutTabs(stripped) else stripped) == h.delimiter then after else SkipBody(h, after)
  }

  function SkipBodies(hs: seq<Heredoc>, rest: string): (after: string)
    ensures |after| <= |rest|
  {
    if hs == [] then rest else SkipBody(hs[|hs| - 1], SkipBodies(hs[..|hs| - 1], rest))
  }

  // ------------------------------------------------------------------ one step

  /** The state after a step and the text that is left. */
  datatype Stepped = Stepped(lex: Lex, rest: string)

  function InQuotes(l: Lex, s: string): (n: Stepped)
    requires s != "" && l.quote.Some?
    ensures |n.rest| < |s|
  {
    if s[0] == l.quote.value then Stepped(l.(quote := None), s[1..])
    else if l.quote == Some('\'') then Stepped(l.Append([s[0]], false), s[1..])
    else if s[0] == '\\' && |s| > 1 then Stepped(l.Append([s[1]], false), s[2..])
    else Stepped(l.Append([s[0]], true), s[1..])
  }

  function AtSpace(l: Lex, s: string): (n: Stepped)
    requires s != ""
    ensures |n.rest| < |s|
  {
    if s[0] != '\n' then Stepped(l.FinishWord(), s[1..])
    else
      var finished := l.FinishWord().FinishCommand(Some("\n"));
      if finished.heredocs == [] then Stepped(finished, s[1..])
      else Stepped(finished.(heredocs := []), SkipBodies(finished.heredocs, s[1..]))
  }

  function AtOperator(l: Lex, s: string): (n: Stepped)
    requires s != ""
    ensures |n.rest| < |s|
  {
    if |s| > 1 && s[1] == s[0] && (s[0] == '|' || s[0] == '&')
    then Stepped(l.FinishCommand(Some([s[0], s[0]])), s[2..])
    else Stepped(l.FinishCommand(Some([s[0]])), s[1..])
  }

  /** One iteration of the loop; every step consumes something. */
  function Step(l: Lex, s: string): (n: Stepped)
    requires s != ""
    ensures |n.rest| < |s|
  {
    var c := s[0];
    if l.quote.Some? then InQuotes(l, s)
    else if c == '\'' || c == '"' then Stepped(l.(wordStarted := true, quote := Some(c)), s[1..])
    else if c == '\\' && |s| > 1 then
      if s[1] == '\n' then Stepped(l, s[2..]) else Stepped(l.Append([s[1]], false), s[2..])
    else if c == '#' && !l.wordStarted then Stepped(l, s[|Line(s)|..])
    else if c == '<' && |s| > 1 && s[1] == '<' then
      var strip := |s| > 2 && s[2] == '-';
      Stepped(l.FinishWord().(heredocTarget := Some(strip)), if strip then s[3..] else s[2..])
    else if IsSpace(c) then AtSpace(l, s)
    else if IsOperator(c) then AtOperator(l, s)
    else Stepped(l.Append([c], true), s[1..])
  }

  function Lexed(l: Lex, s: string): Lex
    decreases |s|
  {
    if s == "" then l else
      var n := Step(l, s);
      Lexed(n.lex, n.rest)
  }

  function Parse(source: string): seq<Command> {
    Lexed(INITIAL, source).FinishCommand(None).commands
  }

  // ------------------------------------------------------------------ quoting

  /** The inside of a single-quoted argument (section 2.2.2 of the POSIX.1-2017 Shell Command Language). */
  function QuoteBody(arg: string): string {
    if arg == "" then "" else (if arg[0] == '\'' then "'\\''" else [arg[0]]) + QuoteBody(arg[1..])
  }

  function Quote(arg: string): string {
    "'" + (QuoteBody(arg) + "'")
  }

  /** The one literal part of a quoted argument; an empty argument has none. */
  function Literal(arg: string): Word {
    if arg == "" then [] else [Part(arg, false)]
  }

  function RenderArguments(args: seq<string>): string {
    if args == [] then "" else
      Quote(args[0]) + if |args| == 1 then "" else " " + RenderArguments(args[1..])
  }

  predicate IsSeparator(op: string) {
    op in {";", "|", "||", "&", "&&", "(", ")", "\n"}
  }

  /** Commands with a separator between each two. */
  function Render(commands: seq<seq<string>>, separators: seq<string>): string
    requires |commands| == |separators| + 1
  {
    RenderArguments(commands[0]) + if |commands| == 1 then ""
        else separators[0] + Render(commands[1..], separators[1..])
  }

  function Words(args: seq<string>): seq<Word> {
    seq(|args|, i requires 0 <= i < |args| => Literal(args[i]))
  }

  /** What lexing a rendered list must give. */
  function Expected(commands: seq<seq<string>>, separators: seq<string>, before: Option<string>): seq<Command>
    requires |commands| == |separators| + 1
  {
    [Command(Words(commands[0]), before)] +
    if |commands| == 1 then [] else Expected(commands[1..], separators[1..], Some(separators[0]))
  }

  /** Between words: nothing begun, no quote, no here-document. */
  predicate Between(l: Lex) {
    !l.wordStarted && l.parts == [] && l.quote == None && l.heredocTarget == None && l.heredocs == []
  }

  lemma Assoc(a: string, b: string, c: string)
    ensures a + b + c == a + (b + c)
  {
  }

  lemma Front(a: string, b: string)
    ensures (a + b)[|a|..] == b && (a != "" ==> a + b != "" && (a + b)[0] == a[0])
  {
  }

  /** One character inside single quotes. */
  lemma StepInside(l: Lex, c: char, rest: string)
    requires l.quote == Some('\'') && c != '\''
    ensures Lexed(l, [c] + rest) == Lexed(l.Append([c], false), rest)
  {
    Front([c], rest);
  }

  /** An embedded quote: close, escaped quote, open again. */
  lemma StepEmbedded(l: Lex, rest: string)
    requires l.quote == Some('\'') && l.wordStarted
    ensures Lexed(l, "'\\''" + rest) == Lexed(l.Append("'", false), rest)
  {
    var s := "'\\''" + rest;
    var outside := l.(quote := None);
    assert s[0] == '\'' && s[1..] == "\\''" + rest;
    assert Lexed(l, s) == Lexed(outside, s[1..]);
    var t := s[1..];
    assert t[0] == '\\' && t[1] == '\'' && t[2..] == "'" + rest;
    var escaped := outside.Append("'", false);
    assert Lexed(outside, t) == Lexed(escaped, t[2..]);
    var u := t[2..];
    assert u[0] == '\'' && u[1..] == rest;
    assert escaped.(wordStarted := true, quote := Some('\'')) == l.Append("'", false);
    assert Lexed(escaped, u) == Lexed(l.Append("'", false), rest);
  }

  /** The state inside a single-quoted word of which `text` has been read. */
  function Inside(l: Lex, text: string): Lex {
    l.(wordStarted := true, quote := Some('\''), parts := Literal(text))
  }

  lemma InsideAppends(l: Lex, text: string, c: char)
    ensures Inside(l, text).Append([c], false) == Inside(l, text + [c])
  {
    if text == "" {
      assert [] + [Part([c], false)] == Literal([c]) && text + [c] == [c];
    } else {
      assert [Part(text, false)][..0] + [Part(text + [c], false)] == Literal(text + [c]);
    }
  }

  lemma {:induction false} LexBody(l: Lex, text: string, arg: string, rest: string)
    ensures Lexed(Inside(l, text), QuoteBody(arg) + rest) == Lexed(Inside(l, text + arg), rest)
    decreases |arg|
  {
    hide Lexed, Inside;
    if arg == "" {
      assert QuoteBody(arg) + rest == rest && text + arg == text;
    } else {
      var c, more := arg[0], QuoteBody(arg[1..]);
      assert Inside(l, text).quote == Some('\'') && Inside(l, text).wordStarted by {
        InsideIs(l, text);
      }
      InsideAppends(l, text, c);
      if c == '\'' {
        Assoc("'\\''", more, rest);
        StepEmbedded(Inside(l, text), more + rest);
      } else {
        Assoc([c], more, rest);
        StepInside(Inside(l, text), c, more + rest);
      }
      LexBody(l, text + [c], arg[1..], rest);
      assert text + [c] + arg[1..] == text + arg;
    }
  }

  lemma InsideIs(l: Lex, text: string)
    ensures Inside(l, text).quote == Some('\'') && Inside(l, text).wordStarted
  {
  }

  /** A quoted argument becomes one word with at most one part, which is literal. */
  lemma LexQuoted(l: Lex, arg: string, rest: string)
    requires Between(l)
    ensures Lexed(l, Quote(arg) + rest) == Lexed(l.(wordStarted := true, parts := Literal(arg)), rest)
  {
    Assoc("'", QuoteBody(arg) + "'", rest);
    Assoc(QuoteBody(arg), "'", rest);
    var s := "'" + (QuoteBody(arg) + ("'" + rest));
    Front("'", QuoteBody(arg) + ("'" + rest));
    Front("'", rest);
    assert l.(wordStarted := true, quote := Some('\'')) == Inside(l, "");
    assert Lexed(l, s) == Lexed(Inside(l, ""), QuoteBody(arg) + ("'" + rest));
    LexBody(l, "", arg, "'" + rest);
    assert "" + arg == arg;
    assert Inside(l, arg).(quote := None) == l.(wordStarted := true, parts := Literal(arg));
    assert Lexed(Inside(l, arg), "'" + rest) == Lexed(l.(wordStarted := true, parts := Literal(arg)), rest);
  }

  // ------------------------------------------------------------------ words, commands, lists

  /** The state after the arguments of a command: all but the last are finished words. */
  ghost function AfterArguments(l: Lex, args: seq<string>): Lex
    requires args != []
  {
    l.(words := l.words + Words(args[..|args| - 1]), wordStarted := true, parts := Literal(args[|args| - 1]))
  }

  lemma StepSpace(l: Lex, rest: string)
    requires l.quote == None && l.heredocTarget == None && l.wordStarted
    ensures Lexed(l, " " + rest) == Lexed(l.(words := l.words + [l.parts], parts := [], wordStarted := false), rest)
  {
    Front(" ", rest);
  }

  lemma {:induction false} LexArguments(l: Lex, args: seq<string>, rest: string)
    requires Between(l) && args != []
    ensures Lexed(l, RenderArguments(args) + rest) == Lexed(AfterArguments(l, args), rest)
    decreases |args|
  {
    hide Lexed, Quote;
    if |args| == 1 {
      LexQuoted(l, args[0], rest);
      assert RenderArguments(args) == Quote(args[0]);
      assert l.words + Words(args[..0]) == l.words;
    } else {
      var more := RenderArguments(args[1..]) + rest;
      Assoc(Quote(args[0]), " " + RenderArguments(args[1..]), rest);
      Assoc(" ", RenderArguments(args[1..]), rest);
      LexQuoted(l, args[0], " " + more);
      var started := l.(wordStarted := true, parts := Literal(args[0]));
      StepSpace(started, more);
      var next := l.(words := l.words + [Literal(args[0])]);
      assert started.(words := started.words + [started.parts], parts := [], wordStarted := false) == next;
      LexArguments(next, args[1..], rest);
      assert args[1..][..|args| - 2] == args[1..|args| - 1];
      assert next.words + Words(args[1..][..|args| - 2]) == l.words + Words(args[..|args| - 1]);
    }
  }

  /** A separator that the following text does not turn into another one ends the command. */
  lemma LexSeparator(l: Lex, op: string, rest: string)
    requires IsSeparator(op) && l.quote == None && l.heredocTarget == None && l.heredocs == []
    requires rest != "" && rest[0] == '\''
    ensures Lexed(l, op + rest) == Lexed(l.FinishCommand(Some(op)), rest)
  {
    var s := op + rest;
    Front(op, rest);
    assert s[0] == op[0] && (|op| == 1 ==> s[1] == rest[0]) && (|op| == 2 ==> s[1] == op[1]);
    assert op == if |op| == 1 then [s[0]] else [s[0], s[0]];
    if op == "\n" {
      assert l.FinishWord().FinishCommand(Some("\n")) == l.FinishCommand(Some("\n"));
    }
    assert Step(l, s) == Stepped(l.FinishCommand(Some(op)), rest);
  }

  lemma RenderedStartsQuoted(commands: seq<seq<string>>, separators: seq<string>)
    requires |commands| == |separators| + 1 && commands[0] != []
    ensures Render(commands, separators) != "" && Render(commands, separators)[0] == '\''
  {
    assert RenderArguments(commands[0])[0] == '\'';
  }

  /** Finishing the command in hand after its arguments. */
  lemma FinishArguments(l: Lex, args: seq<string>, next: Option<string>)
    requires Between(l) && l.words == [] && args != []
    ensures AfterArguments(l, args).FinishCommand(next) ==
            l.(commands := l.commands + [Command(Words(args), l.operatorBefore)], operatorBefore := next)
  {
    var n := |args| - 1;
    assert [] + Words(args[..n]) + [Literal(args[n])] == Words(args);
  }

  lemma {:induction false} LexCommands(l: Lex, commands: seq<seq<string>>, separators: seq<string>)
    requires |commands| == |separators| + 1 && Between(l) && l.words == []
    requires forall i | 0 <= i < |commands| :: commands[i] != []
    requires forall i | 0 <= i < |separators| :: IsSeparator(separators[i])
    ensures Lexed(l, Render(commands, separators)).FinishCommand(None).commands ==
            l.commands + Expected(commands, separators, l.operatorBefore)
    decreases |commands|
  {
    var args := commands[0];
    if |commands| == 1 {
      LexArguments(l, args, "");
      assert Render(commands, separators) == RenderArguments(args) &&
          RenderArguments(args) + "" == RenderArguments(args);
      assert Lexed(AfterArguments(l, args), "") == AfterArguments(l, args);
      FinishArguments(l, args, None);
    } else {
      var op, more := separators[0], Render(commands[1..], separators[1..]);
      RenderedStartsQuoted(commands[1..], separators[1..]);
      hide Lexed, Render, RenderArguments, IsSeparator, Expected, Words, Lex.FinishCommand, Lex.FinishWord;
      assert Render(commands, separators) == RenderArguments(args) + (op + more) by {
        RenderSplits(commands, separators);
      }
      LexArguments(l, args, op + more);
      LexSeparator(AfterArguments(l, args), op, more);
      FinishArguments(l, args, Some(op));
      var next := l.(commands := l.commands + [Command(Words(args), l.operatorBefore)], operatorBefore := Some(op));
      LexCommands(next, commands[1..], separators[1..]);
      ExpectedSplits(l.commands, commands, separators, l.operatorBefore);
    }
  }

  lemma ExpectedSplits(done: seq<Command>, commands: seq<seq<string>>, separators: seq<string>, before: Option<string>)
    requires |commands| == |separators| + 1 > 1
    ensures done + [Command(Words(commands[0]), before)] +
        Expected(commands[1..], separators[1..], Some(separators[0])) ==
            done + Expected(commands, separators, before)
  {
  }

  lemma RenderSplits(commands: seq<seq<string>>, separators: seq<string>)
    requires |commands| == |separators| + 1 > 1
    ensures Render(commands, separators) == RenderArguments(commands[0]) +
        (separators[0] + Render(commands[1..], separators[1..]))
  {
  }

  /**
    Lexing inverts quoting: any list of non-empty commands whose arguments are single-quoted comes back
    as exactly those commands, each argument one literal word, each with the separator before it.
   */
  lemma LexingInvertsQuoting(commands: seq<seq<string>>, separators: seq<string>)
    requires |commands| == |separators| + 1
    requires forall i | 0 <= i < |commands| :: commands[i] != []
    requires forall i | 0 <= i < |separators| :: IsSeparator(separators[i])
    ensures Parse(Render(commands, separators)) == Expected(commands, separators, None)
  {
    LexCommands(INITIAL, commands, separators);
    assert [] + Expected(commands, separators, None) == Expected(commands, separators, None);
  }

  /** The expected commands, one by one. */
  lemma {:induction false} ExpectedAt(commands: seq<seq<string>>, separators: seq<string>, before: Option<string>,
      i: nat)
    requires |commands| == |separators| + 1 && i < |commands|
    ensures |Expected(commands, separators, before)| == |commands|
    ensures Expected(commands, separators, before)[i] ==
            Command(Words(commands[i]), if i == 0 then before else Some(separators[i - 1]))
    decreases |commands|
  {
    if |commands| > 1 {
      ExpectedAt(commands[1..], separators[1..], Some(separators[0]), if i == 0 then 0 else i - 1);
    }
  }

  // ------------------------------------------------------------------ expansion

  predicate Dynamic(value: string) {
    exists i :: 0 <= i < |value| &&
        (value[i] == '$' || value[i] == '`' || (value[i] == '<' && i + 1 < |value| && value[i + 1] == '('))
  }

  /** `variables` replaces the known variables of a text; what stays dynamic is refused. */
  function Expand(word: Word, variables: string -> string): Option<string> {
    if word == [] then Some("") else
      var front, last := Expand(word[..|word| - 1], variables), word[|word| - 1];
      var value := if last.expandable then variables(last.text) else last.text;
      if front.None? || (last.expandable && Dynamic(value)) then None else Some(front.value + value)
  }

  method ExpandShellWord(word: Word, variables: string -> string) returns (r: Option<string>)
    ensures r == Expand(word, variables)
  {
    var expanded := "";
    assert word[..0] == [];
    for i := 0 to |word|
      invariant Expand(word[..i], variables) == Some(expanded)
    {
      hide Dynamic;
      assert word[..i + 1][..i] == word[..i];
      if !word[i].expandable {
        expanded := expanded + word[i].text;
      } else {
        var value := variables(word[i].text);
        if Dynamic(value) {
          RefusedStays(word, i + 1, variables);
          return None;
        }
        expanded := expanded + value;
      }
    }
    assert word[..|word|] == word;
    r := Some(expanded);
  }

  lemma {:induction false} RefusedStays(word: Word, n: nat, variables: string -> string)
    requires n <= |word| && Expand(word[..n], variables) == None
    ensures Expand(word, variables) == None
  {
    hide Dynamic;
    if n == |word| {
      assert word[..n] == word;
    } else {
      var front := word[..|word| - 1];
      assert front[..n] == word[..n];
      RefusedStays(front, n, variables);
    }
  }

  /** A quoted argument expands to itself, whatever variables are known. */
  lemma QuotedExpandsLiterally(arg: string, variables: string -> string)
    ensures Expand(Literal(arg), variables) == Some(arg) && WordText(Literal(arg)) == arg
  {
    if arg != "" {
      var word := Literal(arg);
      assert word[..0] == [] && "" + arg == arg;
      assert Expand(word[..0], variables) == Some("") && WordText(word[..0]) == "";
    }
  }

  /** Argument by argument: lexing and expanding a quoted list gives the list back. */
  lemma ArgumentsComeBack(commands: seq<seq<string>>, separators: seq<string>, variables: string -> string, i: nat,
      j: nat)
    requires |commands| == |separators| + 1
    requires forall k | 0 <= k < |commands| :: commands[k] != []
    requires forall k | 0 <= k < |separators| :: IsSeparator(separators[k])
    requires i < |commands| && j < |commands[i]|
    ensures var parsed := Parse(Render(commands, separators));
      && |parsed| == |commands| && |parsed[i].words| == |commands[i]|
      && Expand(parsed[i].words[j], variables) == Some(commands[i][j])
      && parsed[i].operatorBefore == if i == 0 then None else Some(separators[i - 1])
  {
    LexingInvertsQuoting(commands, separators);
    ExpectedAt(commands, separators, None, i);
    QuotedExpandsLiterally(commands[i][j], variables);
    hide Parse, Render, Expected, Expand, IsSeparator;
  }

  // ------------------------------------------------------------------ the loop

  class ShellLexer {
    const source: string
    var commands: seq<Command>
    var words: seq<Word>
    var parts: seq<Part>
    var wordStarted: bool
    var quote: Option<char>
    var operatorBefore: Option<string>
    var heredocTarget: Option<bool>
    var heredocs: seq<Heredoc>

    ghost function View(): Lex
      reads this
    {
      Lex(commands, words, parts, wordStarted, quote, operatorBefore, heredocTarget, heredocs)
    }

    constructor (source: string)
      ensures View() == INITIAL && this.source == source
    {
      this.source, commands, words, parts, wordStarted := source, [], [], [], false;
      quote, operatorBefore, heredocTarget, heredocs := None, None, None, [];
    }

    method Append(text: string, expandable: bool)
      modifies this`wordStarted, this`parts
      ensures View() == old(View()).Append(text, expandable)
    {
      wordStarted := true;
      if |parts| > 0 && parts[|parts| - 1].expandable == expandable {
        parts := parts[..|parts| - 1] + [Part(parts[|parts| - 1].text + text, expandable)];
      } else {
        parts := parts + [Part(text, expandable)];
      }
    }

    method FinishWord()
      modifies this`words, this`parts, this`wordStarted, this`heredocTarget, this`heredocs
      ensures View() == old(View()).FinishWord()
    {
      if !wordStarted {
        return;
      }
      if heredocTarget.Some? {
        heredocs := heredocs + [Heredoc(WordText(parts), heredocTarget.value)];
        heredocTarget := None;
      } else {
        words := words + [parts];
      }
      parts, wordStarted := [], false;
    }

    method FinishCommand(next: Option<string>)
      modifies this`commands, this`words, this`parts, this`wordStarted, this`heredocTarget, this`heredocs,
          this`operatorBefore
      ensures View() == old(View()).FinishCommand(next)
    {
      FinishWord();
      if |words| > 0 {
        commands := commands + [Command(words, operatorBefore)];
      }
      words, operatorBefore := [], next;
    }

    /** `source.indexOf("\n", cursor)`, or the end of the text. */
    method LineEnd(cursor: nat) returns (end: nat)
      requires cursor <= |source|
      ensures cursor <= end <= |source| && Line(source[cursor..]) == source[cursor..end]
      ensures end < |source| ==> source[end] == '\n'
    {
      end := cursor;
      while end < |source| && source[end] != '\n'
        invariant cursor <= end <= |source| && '\n' !in source[cursor..end]
      {
        assert source[cursor..end + 1] == source[cursor..end] + [source[end]];
        end := end + 1;
      }
      LineUpTo(source[cursor..end], source[end..]);
      assert source[cursor..end] + source[end..] == source[cursor..];
    }

    method SkipHeredocBodies(start: nat) returns (cursor: nat)
      requires start <= |source|
      modifies this`heredocs
      ensures start <= cursor <= |source| && source[cursor..] == SkipBodies(old(heredocs), source[start..])
      ensures View() == old(View()).(heredocs := [])
    {
      cursor := start;
      assert heredocs[..0] == [];
      for i := 0 to |heredocs|
        invariant View() == old(View())
        invariant start <= cursor <= |source| && source[cursor..] == SkipBodies(heredocs[..i], source[start..])
      {
        assert heredocs[..i + 1][..i] == heredocs[..i];
        cursor := SkipOneBody(heredocs[i], cursor);
      }
      assert heredocs[..|heredocs|] == heredocs;
      heredocs := [];
    }

    method SkipOneBody(h: Heredoc, start: nat) returns (cursor: nat)
      requires start <= |source|
      ensures start <= cursor <= |source| && source[cursor..] == SkipBody(h, source[start..])
    {
      cursor := start;
      while cursor < |source|
        invariant start <= cursor <= |source| && SkipBody(h, source[cursor..]) == SkipBody(h, source[start..])
      {
        var end := LineEnd(cursor);
        var line := WithoutReturn(source[cursor..end]);
        var candidate := if h.stripTabs then WithoutTabs(line) else line;
        ghost var rest := source[cursor..];
        assert end < |source| ==> rest[end - cursor + 1..] == source[end + 1..];
        assert |Line(rest)| == end - cursor;
        cursor := if end < |source| then end + 1 else |source|;
        if candidate == h.delimiter {
          break;
        }
      }
    }

    /** The state and the text left after a step that began at `index`. */
    twostate predicate Did(index: nat, next: nat)
      requires index < |source|
      reads this
    {
      index < next <= |source| && Stepped(View(), source[next..]) == Step(old(View()), source[index..])
    }

    method StepInQuotes(index: nat) returns (next: nat)
      requires index < |source| && quote.Some?
      modifies this
      ensures Did(index, next)
    {
      ghost var rest := source[index..];
      assert rest[1..] == source[index + 1..] &&
          (|rest| > 1 ==> rest[1] == source[index + 1] && rest[2..] == source[index + 2..]);
      var character := source[index];
      next := index + 1;
      if character == quote.value {
        quote := None;
      } else if quote != Some('\'') && character == '\\' && index + 1 < |source| {
        Append([source[index + 1]], false);
        next := index + 2;
      } else {
        Append([character], quote != Some('\''));
      }
    }

    method StepAtSpace(index: nat) returns (next: nat)
      requires index < |source| && quote.None? && IsSpace(source[index])
      modifies this
      ensures Did(index, next)
    {
      ghost var rest := source[index..];
      assert rest[1..] == source[index + 1..] && rest[0] == source[index];
      next := index + 1;
      FinishWord();
      if source[index] == '\n' {
        FinishCommand(Some("\n"));
        if |heredocs| > 0 {
          next := SkipHeredocBodies(index + 1);
        }
      }
    }

    method StepAtOperator(index: nat) returns (next: nat)
      requires index < |source| && IsOperator(source[index]) && quote.None?
      modifies this
      ensures Did(index, next)
    {
      ghost var rest := source[index..];
      assert rest[1..] == source[index + 1..] && rest[0] == source[index];
      assert |rest| > 1 ==> rest[1] == source[index + 1] && rest[2..] == source[index + 2..];
      var character := source[index];
      var doubled := index + 1 < |source| && source[index + 1] == character && (character == '|' || character == '&');
      hide Lex.FinishCommand, InQuotes, AtSpace;
      FinishCommand(Some(if doubled then [character, character] else [character]));
      next := if doubled then index + 2 else index + 1;
    }

    method StepAtHeredoc(index: nat) returns (next: nat)
      requires index + 1 < |source| && source[index] == '<' && source[index + 1] == '<' && quote.None?
      modifies this
      ensures Did(index, next)
    {
      ghost var rest := source[index..];
      assert rest[0] == '<' && rest[1] == '<' && rest[2..] == source[index + 2..];
      FinishWord();
      var stripTabs := index + 2 < |source| && source[index + 2] == '-';
      assert stripTabs ==> rest[2] == '-' && rest[3..] == source[index + 3..];
      heredocTarget := Some(stripTabs);
      next := if stripTabs then index + 3 else index + 2;
    }

    method StepEscape(index: nat) returns (next: nat)
      requires index + 1 < |source| && source[index] == '\\' && quote.None?
      modifies this
      ensures Did(index, next)
    {
      ghost var rest := source[index..];
      assert rest[0] == '\\' && rest[1] == source[index + 1] && rest[2..] == source[index + 2..];
      if source[index + 1] != '\n' {
        Append([source[index + 1]], false);
      }
      next := index + 2;
    }

    method StepComment(index: nat) returns (next: nat)
      requires index < |source| && source[index] == '#' && !wordStarted && quote.None?
      ensures Did(index, next)
    {
      ghost var rest := source[index..];
      next := LineEnd(index);
      assert rest[|Line(rest)|..] == source[next..];
    }

    /** One iteration of the loop. */
    method StepAt(index: nat) returns (next: nat)
      requires index < |source|
      modifies this
      ensures Did(index, next)
    {
      var character := source[index];
      var following := if index + 1 < |source| then Some(source[index + 1]) else None;
      ghost var rest := source[index..];
      assert rest[0] == character && rest[1..] == source[index + 1..] && (|rest| > 1 ==> following == Some(rest[1]));
      if quote.Some? {
        next := StepInQuotes(index);
      } else if character == '\'' || character == '"' {
        wordStarted, quote := true, Some(character);
        next := index + 1;
      } else if character == '\\' && following.Some? {
        next := StepEscape(index);
      } else if character == '#' && !wordStarted {
        next := StepComment(index);
      } else if character == '<' && following == Some('<') {
        next := StepAtHeredoc(index);
      } else if IsSpace(character) {
        next := StepAtSpace(index);
      } else if IsOperator(character) {
        next := StepAtOperator(index);
      } else {
        Append([character], true);
        next := index + 1;
      }
    }

    method ParseShellCommands() returns (parsed: seq<Command>)
      requires View() == INITIAL
      modifies this
      ensures parsed == Parse(source)
    {
      var index := 0;
      assert source[0..] == source;
      while index < |source|
        invariant index <= |source| && Lexed(View(), source[index..]) == Lexed(INITIAL, source)
      {
        hide Step;
        index := StepAt(index);
      }
      FinishCommand(None);
      parsed := commands;
    }
  }

  lemma {:induction false} LineUpTo(line: string, rest: string)
    requires '\n' !in line && (rest == "" || rest[0] == '\n')
    ensures Line(line + rest) == line
  {
    if line == "" {
      assert line + rest == rest;
    } else {
      assert (line + rest)[1..] == line[1..] + rest && line[0] in line;
      LineUpTo(line[1..], rest);
    }
  }
}
