/**
  JSON text as `JSON.stringify` prints it and `JSON.parse` reads it. Numbers are the decimals that are
  printed: a sign, a whole part and a fraction; exponents are not part of this model.
 */
module Json {
  import opened Wrappers

  /** `fraction` holds the digits behind the point. */
  datatype Number = Number(negative: bool, whole: nat, fraction: string) {
    predicate Canonical() {
      && AllDigits(fraction)
      && (fraction != "" ==> fraction[|fraction| - 1] != '0')
      && (negative ==> whole > 0 || fraction != "")
    }
  }

  type Decimal = n: Number | n.Canonical() witness Number(false, 0, "")

  datatype Member = Member(key: string, value: Json)

  datatype Json =
    | Null
    | Bool(b: bool)
    | Num(number: Decimal)
    | Str(text: string)
    | Arr(items: seq<Json>)
    | Obj(members: seq<Member>)

  // ------------------------------------------------------------------ digits

  predicate IsDigit(c: char) {
    '0' <= c <= '9'
  }

  predicate AllDigits(s: string) {
    forall i | 0 <= i < |s| :: IsDigit(s[i])
  }

  function Digit(n: nat): (c: char)
    requires n < 10
    ensures IsDigit(c)
  {
    ('0' as int + n) as char
  }

  function DigitsOf(n: nat): (s: string)
    ensures s != "" && AllDigits(s) && (s[0] == '0' ==> n == 0 && |s| == 1)
  {
    if n < 10 then [Digit(n)] else DigitsOf(n / 10) + [Digit(n % 10)]
  }

  function ValueOf(digits: string): nat
    requires AllDigits(digits)
  {
    if digits == "" then 0 else
      var n := |digits| - 1;
      ValueOf(digits[..n]) * 10 + (digits[n] as int - '0' as int)
  }

  lemma {:induction false} DigitsRoundTrip(n: nat)
    ensures ValueOf(DigitsOf(n)) == n
  {
    if n >= 10 {
      DigitsRoundTrip(n / 10);
      assert DigitsOf(n)[..|DigitsOf(n)| - 1] == DigitsOf(n / 10);
    } else {
      assert DigitsOf(n)[..0] == "";
    }
  }

  /** How many digits are at the start. */
  function DigitRun(s: string): (n: nat)
    ensures n <= |s| && AllDigits(s[..n])
  {
    if s == "" || !IsDigit(s[0]) then 0 else 1 + DigitRun(s[1..])
  }

  lemma {:induction false} RunOf(digits: string, rest: string)
    requires AllDigits(digits)
    requires rest == "" || !IsDigit(rest[0])
    ensures DigitRun(digits + rest) == |digits|
  {
    if digits == "" {
      assert digits + rest == rest;
    } else {
      assert (digits + rest)[1..] == digits[1..] + rest;
      RunOf(digits[1..], rest);
    }
  }

  // ------------------------------------------------------------------ printing

  function PrintNumber(n: Number): string {
    if n.negative then "-" + PrintUnsigned(n) else PrintUnsigned(n)
  }

  function PrintUnsigned(n: Number): string {
    if n.fraction == "" then DigitsOf(n.whole) else DigitsOf(n.whole) + ("." + n.fraction)
  }

  function HexDigit(n: nat): char
    requires n < 16
  {
    if n < 10 then Digit(n) else ('a' as int + n - 10) as char
  }

  /** Well-formed `JSON.stringify`: quotes, backslashes and control characters are escaped. */
  function EscapeChar(c: char): (s: string)
    ensures s != "" && s[0] != '"'
  {
    if c == '"' then "\\\""
    else if c == '\\' then "\\\\"
    else if c as int == 8 then "\\b"
    else if c as int == 9 then "\\t"
    else if c as int == 10 then "\\n"
    else if c as int == 12 then "\\f"
    else if c as int == 13 then "\\r"
    else if c as int < 0x20 then ['\\', 'u', '0', '0', HexDigit(c as int / 16), HexDigit(c as int % 16)]
    else [c]
  }

  function Escape(s: string): string {
    if s == "" then "" else EscapeChar(s[0]) + Escape(s[1..])
  }

  function Quote(s: string): string {
    "\"" + (Escape(s) + "\"")
  }

  function Print(j: Json): string {
    match j
    case Null => "null"
    case Bool(b) => if b then "true" else "false"
    case Num(n) => PrintNumber(n)
    case Str(s) => Quote(s)
    case Arr(items) => "[" + PrintItems(items) + "]"
    case Obj(members) => "{" + PrintMembers(members) + "}"
  }

  function PrintItems(items: seq<Json>): string {
    if items == [] then "" else
      Print(items[0]) + if |items| == 1 then "" else "," + PrintItems(items[1..])
  }

  function PrintMembers(members: seq<Member>): string {
    if members == [] then "" else
      Quote(members[0].key) + (":" + (Print(members[0].value) +
        if |members| == 1 then "" else "," + PrintMembers(members[1..])))
  }

  // ------------------------------------------------------------------ parsing

  /** A value read from the start of a text, and the text behind it. */
  datatype Parsed<+T> = Fail | Got(value: T, rest: string)

  predicate IsSpace(c: char) {
    c == ' ' || c == '\t' || c == '\n' || c == '\r'
  }

  function SkipSpace(s: string): (t: string)
    ensures |t| <= |s| && (t != "" ==> !IsSpace(t[0]))
  {
    if s != "" && IsSpace(s[0]) then SkipSpace(s[1..]) else s
  }

  function Trimmed(fraction: string): string
  {
    if fraction != "" && fraction[|fraction| - 1] == '0' then Trimmed(fraction[..|fraction| - 1]) else fraction
  }

  lemma {:induction false} TrimmedIsCanonical(fraction: string)
    requires AllDigits(fraction)
    ensures AllDigits(Trimmed(fraction))
    ensures var f := Trimmed(fraction); f != "" ==> f[|f| - 1] != '0'
  {
    if fraction != "" && fraction[|fraction| - 1] == '0' {
      TrimmedIsCanonical(fraction[..|fraction| - 1]);
    }
  }

  function Normal(negative: bool, whole: nat, fraction: string): Decimal
    requires AllDigits(fraction)
  {
    TrimmedIsCanonical(fraction);
    var f := Trimmed(fraction);
    Number(negative && (whole > 0 || f != ""), whole, f)
  }

  function ParseNumber(s: string): (p: Parsed<Decimal>)
    ensures p.Got? ==> |p.rest| < |s|
  {
    if s != "" && s[0] == '-' then ParseUnsigned(s[1..], true) else ParseUnsigned(s, false)
  }

  function ParseUnsigned(t: string, negative: bool): (p: Parsed<Decimal>)
    ensures p.Got? ==> |p.rest| < |t|
  {
    var k := DigitRun(t);
    if k == 0 || (k > 1 && t[0] == '0') then Fail
    else if t[k..] == "" || t[k] != '.' then Got(Normal(negative, ValueOf(t[..k]), ""), t[k..])
    else
      var u := t[k + 1..];
      var f := DigitRun(u);
      if f == 0 then Fail else Got(Normal(negative, ValueOf(t[..k]), u[..f]), u[f..])
  }

  function HexValue(c: char): Option<nat> {
    if IsDigit(c) then Some(c as int - '0' as int)
    else if 'a' <= c <= 'f' then Some(c as int - 'a' as int + 10)
    else if 'A' <= c <= 'F' then Some(c as int - 'A' as int + 10)
    else None
  }

  /** The code unit of `\uXXXX`, where `s` starts behind the `u`. */
  function ParseUnit(s: string): (u: Option<nat>)
    ensures u.Some? ==> |s| >= 4 && u.value < 0x10000
  {
    if |s| < 4 then None else
      var a, b, c, d := HexValue(s[0]), HexValue(s[1]), HexValue(s[2]), HexValue(s[3]);
      if a.Some? && b.Some? && c.Some? && d.Some?
      then Some(((a.value * 16 + b.value) * 16 + c.value) * 16 + d.value) else None
  }

  /** One possibly escaped character of a string literal; unpaired surrogates are not part of this model. */
  function ParseChar(s: string): (p: Parsed<char>)
    requires s != ""
    ensures p.Got? ==> |p.rest| < |s|
  {
    if s[0] as int < 0x20 then Fail
    else if s[0] != '\\' then Got(s[0], s[1..])
    else if |s| == 1 then Fail
    else match s[1]
      case '"' => Got('"', s[2..])
      case '\\' => Got('\\', s[2..])
      case '/' => Got('/', s[2..])
      case 'b' => Got(8 as char, s[2..])
      case 't' => Got(9 as char, s[2..])
      case 'n' => Got(10 as char, s[2..])
      case 'f' => Got(12 as char, s[2..])
      case 'r' => Got(13 as char, s[2..])
      case 'u' =>
        var unit := ParseUnit(s[2..]);
        if unit.None? then Fail
        else if !(0xD800 <= unit.value < 0xE000) then Got(unit.value as char, s[6..])
        else if unit.value >= 0xDC00 || |s| < 8 || s[6] != '\\' || s[7] != 'u' then Fail
        else
          var low := ParseUnit(s[8..]);
          if low.Some? && 0xDC00 <= low.value < 0xE000
          then Got((0x10000 + (unit.value - 0xD800) * 0x400 + (low.value - 0xDC00)) as char, s[12..]) else Fail
      case _ => Fail
  }

  /** The rest of a string literal, behind its opening quote. */
  function ParseText(s: string): (p: Parsed<string>)
    ensures p.Got? ==> |p.rest| < |s|
    decreases |s|
  {
    if s == "" then Fail
    else if s[0] == '"' then Got("", s[1..])
    else
      var c := ParseChar(s);
      if c.Fail? then Fail else
        var t := ParseText(c.rest);
        if t.Fail? then Fail else Got([c.value] + t.value, t.rest)
  }

  function ParseLiteral(s: string, word: string, j: Json): (p: Parsed<Json>)
    requires word != ""
    ensures p.Got? ==> |p.rest| < |s|
  {
    if word <= s then Got(j, s[|word|..]) else Fail
  }

  function ParseValue(s: string): (p: Parsed<Json>)
    ensures p.Got? ==> |p.rest| < |s|
    decreases |s|, 1
  {
    var t := SkipSpace(s);
    if t == "" then Fail
    else match t[0]
      case 'n' => ParseLiteral(t, "null", Null)
      case 't' => ParseLiteral(t, "true", Bool(true))
      case 'f' => ParseLiteral(t, "false", Bool(false))
      case '"' =>
        var text := ParseText(t[1..]);
        if text.Fail? then Fail else Got(Str(text.value), text.rest)
      case '[' =>
        var items := ParseArray(t[1..]);
        if items.Fail? then Fail else Got(Arr(items.value), items.rest)
      case '{' =>
        var members := ParseObject(t[1..]);
        if members.Fail? then Fail else Got(Obj(members.value), members.rest)
      case _ =>
        var number := ParseNumber(t);
        if number.Fail? then Fail else Got(Num(number.value), number.rest)
  }

  function ParseArray(s: string): (p: Parsed<seq<Json>>)
    ensures p.Got? ==> |p.rest| < |s|
    decreases |s|, 3
  {
    var t := SkipSpace(s);
    if t != "" && t[0] == ']' then Got([], t[1..]) else ParseItems(s)
  }

  function ParseObject(s: string): (p: Parsed<seq<Member>>)
    ensures p.Got? ==> |p.rest| < |s|
    decreases |s|, 3
  {
    var t := SkipSpace(s);
    if t != "" && t[0] == '}' then Got([], t[1..]) else ParseMembers(s)
  }

  /** One or more items, up to and including the closing bracket. */
  function ParseItems(s: string): (p: Parsed<seq<Json>>)
    ensures p.Got? ==> |p.rest| < |s|
    decreases |s|, 2
  {
    var first := ParseValue(s);
    if first.Fail? then Fail else
      var t := SkipSpace(first.rest);
      if t == "" then Fail
      else if t[0] == ']' then Got([first.value], t[1..])
      else if t[0] != ',' then Fail
      else
        var more := ParseItems(t[1..]);
        if more.Fail? then Fail else Got([first.value] + more.value, more.rest)
  }

  /** One or more members, up to and including the closing brace. */
  function ParseMembers(s: string): (p: Parsed<seq<Member>>)
    ensures p.Got? ==> |p.rest| < |s|
    decreases |s|, 2
  {
    var open := SkipSpace(s);
    if open == "" || open[0] != '"' then Fail else
      var key := ParseText(open[1..]);
      if key.Fail? then Fail else
        var colon := SkipSpace(key.rest);
        if colon == "" || colon[0] != ':' then Fail else
          var value := ParseValue(colon[1..]);
          if value.Fail? then Fail else
            var t := SkipSpace(value.rest);
            var member := Member(key.value, value.value);
            if t == "" then Fail
            else if t[0] == '}' then Got([member], t[1..])
            else if t[0] != ',' then Fail
            else
              var more := ParseMembers(t[1..]);
              if more.Fail? then Fail else Got([member] + more.value, more.rest)
  }

  /** `JSON.parse`; `None` stands for the error it throws. */
  function Parse(s: string): Option<Json> {
    var p := ParseValue(s);
    if p.Got? && SkipSpace(p.rest) == "" then Some(p.value) else None
  }

  /** A property of an object; of members with equal keys the last one counts. */
  function Get(members: seq<Member>, key: string): Option<Json> {
    if members == [] then None
    else if members[|members| - 1].key == key then Some(members[|members| - 1].value)
    else Get(members[..|members| - 1], key)
  }

  // ------------------------------------------------------------------ round trip

  lemma Assoc(a: string, b: string, c: string)
    ensures a + b + c == a + (b + c)
  {
  }

  lemma Splits(a: string, b: string)
    ensures (a + b)[..|a|] == a && (a + b)[|a|..] == b && (a != "" ==> (a + b)[0] == a[0])
  {
  }

  lemma Enclosed(open: string, body: string, close: string, rest: string)
    requires |open| == 1
    ensures open + body + close + rest == open + (body + (close + rest))
    ensures (open + body + close + rest)[1..] == body + (close + rest)
  {
    Assoc(open + body, close, rest);
    Assoc(open, body, close + rest);
    Splits(open, body + (close + rest));
  }

  /** What may follow a printed number without changing it. */
  predicate Delimited(rest: string) {
    rest == "" || (!IsDigit(rest[0]) && rest[0] != '.')
  }

  lemma NumberRoundTrip(n: Decimal, rest: string)
    requires Delimited(rest)
    ensures ParseNumber(PrintNumber(n) + rest) == Got(n, rest)
    ensures PrintNumber(n) != "" && (PrintNumber(n)[0] == '-' || IsDigit(PrintNumber(n)[0]))
  {
    var s := PrintNumber(n) + rest;
    UnsignedRoundTrip(n, rest);
    hide ParseUnsigned, PrintUnsigned;
    if n.negative {
      Assoc("-", PrintUnsigned(n), rest);
      Splits("-", PrintUnsigned(n) + rest);
    }
  }

  lemma UnsignedRoundTrip(n: Decimal, rest: string)
    requires Delimited(rest)
    ensures ParseUnsigned(PrintUnsigned(n) + rest, n.negative) == Got(n, rest)
    ensures PrintUnsigned(n) != "" && IsDigit(PrintUnsigned(n)[0])
    ensures (PrintUnsigned(n) + rest)[0] == PrintUnsigned(n)[0]
  {
    var digits := DigitsOf(n.whole);
    var tail := if n.fraction == "" then rest else "." + (n.fraction + rest);
    var t := PrintUnsigned(n) + rest;
    DigitsRoundTrip(n.whole);
    assert IsDigit(digits[0]);
    hide DigitsOf, ValueOf, DigitRun, AllDigits;
    assert t == digits + tail by {
      Assoc(digits, "." + n.fraction, rest);
      Assoc(".", n.fraction, rest);
    }
    RunOf(digits, tail);
    Splits(digits, tail);
    if n.fraction != "" {
      assert t[|digits|] == '.' && t[|digits| + 1..] == n.fraction + rest by {
        Splits(".", n.fraction + rest);
        assert t[|digits| + 1..] == t[|digits|..][1..];
      }
      RunOf(n.fraction, rest);
      Splits(n.fraction, rest);
    }
  }

  lemma HexRoundTrip(n: nat)
    requires n < 16
    ensures HexValue(HexDigit(n)) == Some(n)
  {
  }

  lemma CharRoundTrip(c: char, rest: string)
    ensures ParseChar(EscapeChar(c) + rest) == Got(c, rest)
  {
    var e := EscapeChar(c);
    var s := e + rest;
    assert s[|e|..] == rest && s[0] == e[0];
    if |e| > 1 {
      assert s[1] == e[1];
      if |e| > 2 {
        HexRoundTrip(c as int / 16);
        HexRoundTrip(c as int % 16);
        assert s[2] == e[2] && s[3] == e[3] && s[4] == e[4] && s[5] == e[5];
        assert c as int == c as int / 16 * 16 + c as int % 16;
      }
    }
  }

  lemma {:induction false} TextRoundTrip(text: string, rest: string)
    ensures ParseText(Escape(text) + "\"" + rest) == Got(text, rest)
  {
    var s := Escape(text) + "\"" + rest;
    if text == "" {
      assert s == "\"" + rest && s[1..] == rest;
    } else {
      var more := Escape(text[1..]) + "\"" + rest;
      assert s == EscapeChar(text[0]) + more;
      CharRoundTrip(text[0], more);
      TextRoundTrip(text[1..], rest);
      assert s[0] == EscapeChar(text[0])[0] && [text[0]] + text[1..] == text;
      hide EscapeChar, ParseChar, Escape;
      assert ParseText(s) == Got([text[0]] + text[1..], rest);
    }
  }

  lemma QuoteSplits(text: string, rest: string)
    ensures Quote(text) + rest != "" && (Quote(text) + rest)[0] == '"'
    ensures ParseText((Quote(text) + rest)[1..]) == Got(text, rest)
  {
    TextRoundTrip(text, rest);
    hide Escape, ParseText;
    Assoc("\"", Escape(text) + "\"", rest);
    Splits("\"", Escape(text) + "\"" + rest);
  }

  /** No printed value starts with a space or a closing bracket. */
  lemma PrintStarts(j: Json)
    ensures Print(j) != "" && !IsSpace(Print(j)[0]) && Print(j)[0] != ']'
  {
    if j.Num? {
      NumberRoundTrip(j.number, "");
    }
  }

  lemma WordRoundTrip(j: Json, rest: string)
    requires j.Null? || j.Bool?
    ensures ParseValue(Print(j) + rest) == Got(j, rest)
  {
    var word := Print(j);
    assert word <= word + rest && (word + rest)[|word|..] == rest;
    hide ParseNumber, ParseText, ParseArray, ParseObject;
  }

  /** How the first character of a value decides what is read. */
  lemma Dispatch(s: string)
    requires s != ""
    ensures s[0] == '"' && ParseText(s[1..]).Got? ==>
      ParseValue(s) == Got(Str(ParseText(s[1..]).value), ParseText(s[1..]).rest)
    ensures s[0] == '[' && ParseArray(s[1..]).Got? ==>
      ParseValue(s) == Got(Arr(ParseArray(s[1..]).value), ParseArray(s[1..]).rest)
    ensures s[0] == '{' && ParseObject(s[1..]).Got? ==>
      ParseValue(s) == Got(Obj(ParseObject(s[1..]).value), ParseObject(s[1..]).rest)
    ensures (s[0] == '-' || IsDigit(s[0])) && ParseNumber(s).Got? ==>
      ParseValue(s) == Got(Num(ParseNumber(s).value), ParseNumber(s).rest)
  {
    hide ParseNumber, ParseText, ParseArray, ParseObject;
    assert !IsSpace(s[0]) ==> SkipSpace(s) == s;
  }

  /** Reading what was printed gives the value back, whatever follows it. */
  lemma {:induction false} ValueRoundTrip(j: Json, rest: string)
    requires Delimited(rest)
    ensures ParseValue(Print(j) + rest) == Got(j, rest)
    decreases j, 0
  {
    var s := Print(j) + rest;
    PrintStarts(j);
    hide ParseValue, ParseNumber, PrintNumber, ParseText, Quote, ParseArray, PrintItems, ParseObject, PrintMembers;
    match j {
      case Num(n) =>
        NumberRoundTrip(n, rest);
        Dispatch(s);
      case Str(text) =>
        QuoteSplits(text, rest);
        Dispatch(s);
      case Arr(items) =>
        Enclosed("[", PrintItems(items), "]", rest);
        ArrayRoundTrip(items, rest);
        Dispatch(s);
      case Obj(members) =>
        Enclosed("{", PrintMembers(members), "}", rest);
        ObjectRoundTrip(members, rest);
        Dispatch(s);
      case _ => WordRoundTrip(j, rest);
    }
  }

  lemma ItemsStep(s: string, value: Json, tail: string)
    requires ParseValue(s) == Got(value, tail) && tail != ""
    ensures tail[0] == ']' ==> ParseItems(s) == Got([value], tail[1..])
    ensures tail[0] == ',' && ParseItems(tail[1..]).Got? ==>
      ParseItems(s) == Got([value] + ParseItems(tail[1..]).value, ParseItems(tail[1..]).rest)
  {
    hide ParseValue;
    assert !IsSpace(tail[0]) ==> SkipSpace(tail) == tail;
  }

  lemma {:induction false} ArrayRoundTrip(items: seq<Json>, rest: string)
    ensures ParseArray(PrintItems(items) + ("]" + rest)) == Got(items, rest)
    decreases items, 2
  {
    var s := PrintItems(items) + ("]" + rest);
    if items == [] {
      assert s == "]" + rest && s[1..] == rest;
    } else {
      ItemsRoundTrip(items, rest);
      PrintStarts(items[0]);
      assert s[0] == Print(items[0])[0];
      hide ParseItems, PrintItems, Print;
      assert SkipSpace(s) == s;
    }
  }

  lemma {:induction false} ItemsRoundTrip(items: seq<Json>, rest: string)
    requires items != []
    ensures ParseItems(PrintItems(items) + ("]" + rest)) == Got(items, rest)
    decreases items, 1
  {
    hide ParseValue, ParseItems, Print;
    var s := PrintItems(items) + ("]" + rest);
    if |items| == 1 {
      var tail := "]" + rest;
      assert s == Print(items[0]) + tail && tail[1..] == rest && items == [items[0]];
      ValueRoundTrip(items[0], tail);
      ItemsStep(s, items[0], tail);
    } else {
      var more := PrintItems(items[1..]) + ("]" + rest);
      var tail := "," + more;
      assert s == Print(items[0]) + tail && tail[1..] == more;
      ValueRoundTrip(items[0], tail);
      ItemsRoundTrip(items[1..], rest);
      assert [items[0]] + items[1..] == items;
      ItemsStep(s, items[0], tail);
    }
  }

  lemma MembersStep(s: string, key: string, colon: string, value: Json, tail: string)
    requires s != "" && s[0] == '"' && ParseText(s[1..]) == Got(key, colon)
    requires colon != "" && colon[0] == ':' && ParseValue(colon[1..]) == Got(value, tail) && tail != ""
    ensures tail[0] == '}' ==> ParseMembers(s) == Got([Member(key, value)], tail[1..])
    ensures tail[0] == ',' && ParseMembers(tail[1..]).Got? ==>
      ParseMembers(s) == Got([Member(key, value)] + ParseMembers(tail[1..]).value, ParseMembers(tail[1..]).rest)
  {
    hide ParseValue, ParseText;
    assert SkipSpace(s) == s && SkipSpace(colon) == colon;
    assert !IsSpace(tail[0]) ==> SkipSpace(tail) == tail;
  }

  lemma {:induction false} ObjectRoundTrip(members: seq<Member>, rest: string)
    ensures ParseObject(PrintMembers(members) + ("}" + rest)) == Got(members, rest)
    decreases members, 2
  {
    var s := PrintMembers(members) + ("}" + rest);
    if members == [] {
      assert s == "}" + rest && s[1..] == rest;
    } else {
      MembersRoundTrip(members, rest);
      assert s[0] == '"';
      hide ParseMembers, PrintMembers;
      assert SkipSpace(s) == s;
    }
  }

  lemma {:induction false} MembersRoundTrip(members: seq<Member>, rest: string)
    requires members != []
    ensures ParseMembers(PrintMembers(members) + ("}" + rest)) == Got(members, rest)
    decreases members, 1
  {
    hide ParseValue, ParseMembers, ParseText, Print, PrintMembers, Quote;
    var s := PrintMembers(members) + ("}" + rest);
    var key, value, tail := members[0].key, members[0].value, TailOf(members, rest);
    var colon := ":" + (Print(value) + tail);
    MembersSplit(members, rest);
    QuoteSplits(key, colon);
    ValueRoundTrip(value, tail);
    MembersStep(s, key, colon, value, tail);
    if |members| == 1 {
      assert tail[1..] == rest && members == [Member(key, value)];
    } else {
      MembersRoundTrip(members[1..], rest);
      assert members == [Member(key, value)] + members[1..];
    }
  }

  /** What follows the first member of a printed object. */
  ghost function TailOf(members: seq<Member>, rest: string): (tail: string)
    requires members != []
    ensures tail != ""
  {
    if |members| == 1 then "}" + rest else "," + (PrintMembers(members[1..]) + ("}" + rest))
  }

  lemma MembersSplit(members: seq<Member>, rest: string)
    requires members != []
    ensures PrintMembers(members) + ("}" + rest)
            == Quote(members[0].key) + (":" + (Print(members[0].value) + TailOf(members, rest)))
    ensures (":" + (Print(members[0].value) + TailOf(members, rest)))[1..] == Print(members[0].value) +
        TailOf(members, rest)
    ensures |members| > 1 ==> TailOf(members, rest)[1..] == PrintMembers(members[1..]) + ("}" + rest)
  {
    var quoted, printed, end := Quote(members[0].key), Print(members[0].value), "}" + rest;
    var more := if |members| == 1 then "" else "," + PrintMembers(members[1..]);
    assert PrintMembers(members) == quoted + (":" + (printed + more));
    var tail := TailOf(members, rest);
    assert more + end == tail && (|members| > 1 ==> tail[1..] == PrintMembers(members[1..]) + end) by {
      hide PrintMembers;
      if |members| > 1 {
        Assoc(",", PrintMembers(members[1..]), end);
        Splits(",", PrintMembers(members[1..]) + end);
      }
    }
    hide *;
    Assoc(quoted, ":" + (printed + more), end);
    Assoc(":", printed + more, end);
    Assoc(printed, more, end);
    Splits(":", printed + tail);
  }

  /** `JSON.parse(JSON.stringify(j))` is `j`. */
  lemma RoundTrip(j: Json)
    ensures Parse(Print(j)) == Some(j)
  {
    ValueRoundTrip(j, "");
    assert Print(j) + "" == Print(j);
  }

  // ------------------------------------------------------------------ one line

  lemma {:induction false} EscapeIsOneLine(s: string)
    ensures '\n' !in Escape(s)
  {
    if s != "" {
      EscapeIsOneLine(s[1..]);
    }
  }

  /** Printed JSON never contains a line break. */
  lemma {:induction false} PrintIsOneLine(j: Json)
    ensures '\n' !in Print(j)
    decreases j, 0
  {
    match j {
      case Str(s) => EscapeIsOneLine(s);
      case Num(n) =>
      case Arr(items) => ItemsAreOneLine(items);
      case Obj(members) => MembersAreOneLine(members);
      case _ =>
    }
  }

  lemma {:induction false} ItemsAreOneLine(items: seq<Json>)
    ensures '\n' !in PrintItems(items)
    decreases items, 1
  {
    if items != [] {
      PrintIsOneLine(items[0]);
      ItemsAreOneLine(items[1..]);
    }
  }

  lemma {:induction false} MembersAreOneLine(members: seq<Member>)
    ensures '\n' !in PrintMembers(members)
    decreases members, 1
  {
    if members != [] {
      EscapeIsOneLine(members[0].key);
      PrintIsOneLine(members[0].value);
      MembersAreOneLine(members[1..]);
    }
  }
}
