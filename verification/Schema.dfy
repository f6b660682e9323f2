/**
  Rendering JSON Schemas as TypeScript types, with local references expanded on the way
  (packages/codemode/src/declarations.ts).
 */
module Schemas {
  import opened Wrappers
  import opened Json

  const MAX_REF_EXPANSIONS: nat := 32
  const INDENT := "  "

  // ------------------------------------------------------------------ sizes

  function Size(j: Json): (n: nat)
    ensures n > 0
  {
    match j
    case Arr(items) => 1 + SizeOfItems(items)
    case Obj(members) => 1 + SizeOfMembers(members)
    case _ => 1
  }

  function SizeOfItems(items: seq<Json>): nat {
    if items == [] then 0 else SizeOfItems(items[..|items| - 1]) + Size(items[|items| - 1])
  }

  function SizeOfMembers(members: seq<Member>): nat {
    if members == [] then 0 else SizeOfMembers(members[..|members| - 1]) + Size(members[|members| - 1].value)
  }

  lemma {:induction false} ItemIsSmaller(items: seq<Json>, i: nat)
    requires i < |items|
    ensures Size(items[i]) <= SizeOfItems(items)
  {
    if i < |items| - 1 {
      ItemIsSmaller(items[..|items| - 1], i);
    }
  }

  lemma {:induction false} GetIsSmaller(members: seq<Member>, key: string)
    requires Get(members, key).Some?
    ensures Size(Get(members, key).value) <= SizeOfMembers(members)
  {
    if members[|members| - 1].key != key {
      GetIsSmaller(members[..|members| - 1], key);
    }
  }

  function Without(members: seq<Member>, key: string): seq<Member> {
    if members == [] then [] else
      var front, last := Without(members[..|members| - 1], key), members[|members| - 1];
      if last.key == key then front else front + [last]
  }

  /** `{ ...schema, [key]: value }`. */
  function With(members: seq<Member>, key: string, value: Json): seq<Member> {
    Without(members, key) + [Member(key, value)]
  }

  lemma {:induction false} WithoutIsSmaller(members: seq<Member>, key: string)
    ensures SizeOfMembers(Without(members, key)) +
        (if Get(members, key).Some? then Size(Get(members, key).value) else 0)
            <= SizeOfMembers(members)
  {
    if members != [] {
      var front, last := members[..|members| - 1], members[|members| - 1];
      WithoutIsSmaller(front, key);
      if last.key != key {
        assert (Without(front, key) + [last])[..|Without(front, key)|] == Without(front, key);
      }
    }
  }

  /** Taking one entry of an array-valued member makes a schema smaller, however the arrays are nested. */
  lemma EntryIsSmaller(members: seq<Member>, key: string, entries: seq<Json>, i: nat)
    requires Get(members, key) == Some(Arr(entries)) && i < |entries|
    ensures Size(Obj(With(members, key, entries[i]))) < Size(Obj(members))
  {
    WithoutIsSmaller(members, key);
    ItemIsSmaller(entries, i);
    assert With(members, key, entries[i])[..|Without(members, key)|] == Without(members, key);
  }

  // ------------------------------------------------------------------ references

  function Split(s: string): (parts: seq<string>)
    ensures parts != []
  {
    if s == "" then [""]
    else if s[0] == '/' then [""] + Split(s[1..])
    else
      var rest := Split(s[1..]);
      [[s[0]] + rest[0]] + rest[1..]
  }

  function NonEmpty(parts: seq<string>): seq<string> {
    if parts == [] then [] else (if parts[0] == "" then [] else [parts[0]]) + NonEmpty(parts[1..])
  }

  /** `replaceAll("~1", "/")`. */
  function Slashes(s: string): string {
    if s == "" then ""
    else if |s| > 1 && s[0] == '~' && s[1] == '1' then "/" + Slashes(s[2..])
    else [s[0]] + Slashes(s[1..])
  }

  /** `replaceAll("~0", "~")`. */
  function Tildes(s: string): string {
    if s == "" then ""
    else if |s| > 1 && s[0] == '~' && s[1] == '0' then "~" + Tildes(s[2..])
    else [s[0]] + Tildes(s[1..])
  }

  function Unescape(s: string): string {
    Tildes(Slashes(s))
  }

  datatype Resolution = Missing | Malformed | Found(schema: Json)

  /** `decode` stands for `decodeURIComponent`, which throws on malformed escapes. */
  function Walk(current: Json, segments: seq<string>, decode: string -> Option<string>): Resolution
    decreases |segments|
  {
    if segments == [] then if current.Bool? || current.Obj? then Found(current) else Missing
    else
      var decoded := decode(segments[0]);
      if decoded.None? then Malformed
      else
        var key := Unescape(decoded.value);
        if !current.Obj? || Get(current.members, key).None? then Missing
        else Walk(Get(current.members, key).value, segments[1..], decode)
  }

  function ResolveRef(ref: string, root: Json, decode: string -> Option<string>): Resolution {
    if ref != "#" && !("#/" <= ref) then Missing
    else Walk(root, NonEmpty(Split(if |ref| < 2 then "" else ref[2..])), decode)
  }

  // ------------------------------------------------------------------ text

  function Join(parts: seq<string>, separator: string): string {
    if parts == [] then "" else
      var n := |parts| - 1;
      if n == 0 then parts[0] else Join(parts[..n], separator) + separator + parts[n]
  }

  function Unique(types: seq<string>): seq<string> {
    if types == [] then [] else
      var front, last := Unique(types[..|types| - 1]), types[|types| - 1];
      if last in front then front else front + [last]
  }

  function UnionOf(types: seq<string>): string {
    var unique := Unique(types);
    if "unknown" in unique then "unknown" else if unique == [] then "never" else Join(unique, " | ")
  }

  predicate Contains(s: string, t: string) {
    exists i :: 0 <= i <= |s| && t <= s[i..]
  }

  function Known(parts: seq<string>): seq<string> {
    if parts == [] then [] else
      (if parts[0] == "unknown" then [] else [if Contains(parts[0], " | ") then "(" + parts[0] + ")" else parts[0]]) +
          Known(parts[1..])
  }

  function IntersectionOf(parts: seq<string>): string {
    var known := Known(parts);
    if known == [] then "unknown" else Join(known, " & ")
  }

  function Printed(values: seq<Json>): seq<string> {
    seq(|values|, i requires 0 <= i < |values| => Print(values[i]))
  }

  predicate IsIdentifierStart(c: char) {
    'A' <= c <= 'Z' || 'a' <= c <= 'z' || c == '_' || c == '$'
  }

  function PropertyKey(name: string): string {
    if name != "" && IsIdentifierStart(name[0]) && forall i | 0 <= i < |name| ::
        IsIdentifierStart(name[i]) || IsDigit(name[i])
    then name else Quote(name)
  }

  /** The order of `sort()`: by UTF-16 code units. */
  function UnitsOf(c: char): int {
    var n := c as int;
    if n < 0x10000 then n * 0x10000 else (0xD800 + (n - 0x10000) / 0x400) * 0x10000 + 0xDC00 + (n - 0x10000) % 0x400
  }

  predicate Precedes(a: string, b: string) {
    if a == "" then true
    else if b == "" then false
    else if a[0] == b[0] then Precedes(a[1..], b[1..])
    else UnitsOf(a[0]) < UnitsOf(b[0])
  }

  function Insert(sorted: seq<string>, name: string): seq<string> {
    if sorted == [] || Precedes(name, sorted[0]) then [name] + sorted else [sorted[0]] + Insert(sorted[1..], name)
  }

  /** `Object.keys(properties).sort()`. */
  function SortedKeys(members: seq<Member>): (names: seq<string>)
    ensures forall name | name in names :: Get(members, name).Some?
  {
    if members == [] then [] else
      var front, last := SortedKeys(members[..|members| - 1]), members[|members| - 1].key;
      if last in front then front else
        InsertHas(front, last);
        Insert(front, last)
  }

  lemma {:induction false} InsertHas(sorted: seq<string>, name: string)
    ensures forall x :: x in Insert(sorted, name) <==> x in sorted || x == name
    ensures |Insert(sorted, name)| == |sorted| + 1
  {
    if sorted != [] && !Precedes(name, sorted[0]) {
      InsertHas(sorted[1..], name);
      assert sorted == [sorted[0]] + sorted[1..];
    }
  }

  lemma UnitsInjective(c: char, d: char)
    requires UnitsOf(c) == UnitsOf(d)
    ensures c == d
  {
    var m, n := c as int, d as int;
    if m >= 0x10000 && n >= 0x10000 {
      assert (m - 0x10000) / 0x400 == (n - 0x10000) / 0x400;
    }
  }

  lemma {:induction false} PrecedesTotally(a: string, b: string)
    ensures Precedes(a, b) || Precedes(b, a)
    ensures Precedes(a, b) && Precedes(b, a) ==> a == b
  {
    if a != "" && b != "" {
      if UnitsOf(a[0]) == UnitsOf(b[0]) {
        UnitsInjective(a[0], b[0]);
      }
      if a[0] == b[0] {
        PrecedesTotally(a[1..], b[1..]);
        assert a == [a[0]] + a[1..] && b == [b[0]] + b[1..];
      }
    }
  }

  lemma {:induction false} PrecedesTrans(a: string, b: string, c: string)
    requires Precedes(a, b) && Precedes(b, c)
    ensures Precedes(a, c)
  {
    if a != "" && a[0] == b[0] == c[0] {
      PrecedesTrans(a[1..], b[1..], c[1..]);
    }
  }

  predicate Ascending(names: seq<string>) {
    forall i, j | 0 <= i < j < |names| :: Precedes(names[i], names[j]) && names[i] != names[j]
  }

  lemma {:induction false} InsertAscends(sorted: seq<string>, name: string)
    requires Ascending(sorted) && name !in sorted
    ensures Ascending(Insert(sorted, name))
  {
    if sorted != [] {
      if Precedes(name, sorted[0]) {
        forall j | 0 <= j < |sorted| ensures Precedes(name, sorted[j]) {
          if j > 0 {
            PrecedesTrans(name, sorted[0], sorted[j]);
          }
        }
      } else {
        var rest := Insert(sorted[1..], name);
        InsertAscends(sorted[1..], name);
        InsertHas(sorted[1..], name);
        PrecedesTotally(name, sorted[0]);
        forall j | 0 <= j < |rest| ensures Precedes(sorted[0], rest[j]) && sorted[0] != rest[j] {
          assert rest[j] in sorted[1..] || rest[j] == name;
        }
      }
    }
  }

  /** The properties of an object type come in the order of their names, each name once, none left out. */
  lemma {:induction false} KeysAscend(members: seq<Member>)
    ensures Ascending(SortedKeys(members))
    ensures forall name :: name in SortedKeys(members) <==> Get(members, name).Some?
  {
    if members != [] {
      var front, last := SortedKeys(members[..|members| - 1]), members[|members| - 1].key;
      KeysAscend(members[..|members| - 1]);
      InsertHas(front, last);
      if last !in front {
        InsertAscends(front, last);
      }
    }
  }

  // ------------------------------------------------------------------ layout of object types

  predicate IsBlank(c: char) {
    var n := c as int;
    || 9 <= n <= 13 || n == 32 || n == 0xA0 || n == 0x1680 || 0x2000 <= n <= 0x200A || n == 0x2028 || n == 0x2029
    || n == 0x202F || n == 0x205F || n == 0x3000 || n == 0xFEFF
  }

  function Trim(s: string): string
    decreases |s|
  {
    if s == "" then ""
    else if IsBlank(s[0]) then Trim(s[1..])
    else if IsBlank(s[|s| - 1]) then Trim(s[..|s| - 1])
    else s
  }

  /** `split(/\r?\n/)`. */
  function TextLines(s: string): (parts: seq<string>)
    ensures parts != []
    decreases |s|
  {
    if s == "" then [""]
    else if s[0] == '\n' then [""] + TextLines(s[1..])
    else if |s| > 1 && s[0] == '\r' && s[1] == '\n' then [""] + TextLines(s[2..])
    else
      var rest := TextLines(s[1..]);
      [[s[0]] + rest[0]] + rest[1..]
  }

  /** `replaceAll("\n", "\n" + INDENT)`. */
  function Indented(s: string): string {
    if s == "" then "" else (if s[0] == '\n' then "\n" + INDENT else [s[0]]) + Indented(s[1..])
  }

  function DescriptionOf(property: Json): string {
    if property.Obj? then
      match Get(property.members, "description")
      case Some(Str(text)) => Trim(text)
      case _ => ""
    else ""
  }

  function CommentLines(texts: seq<string>): seq<string> {
    if texts == [] then [] else
      (if Trim(texts[0]) == "" then [] else [INDENT + "// " + Trim(texts[0])]) + CommentLines(texts[1..])
  }

  function PropertyLines(descriptions: seq<string>, members: seq<string>): seq<string>
    requires |descriptions| <= |members|
  {
    if descriptions == [] then Margins(members)
    else
      CommentLines(TextLines(descriptions[0])) + [INDENT + Indented(members[0])] +
      PropertyLines(descriptions[1..], members[1..])
  }

  function Margins(members: seq<string>): seq<string> {
    if members == [] then [] else [INDENT + members[0]] + Margins(members[1..])
  }

  function Layout(descriptions: seq<string>, members: seq<string>): string
    requires |descriptions| <= |members|
  {
    if members == [] then "{}"
    else if forall i | 0 <= i < |descriptions| :: descriptions[i] == "" then "{ " + Join(members, " ") + " }"
    else Join(["{"] + PropertyLines(descriptions, members) + ["}"], "\n")
  }

  // ------------------------------------------------------------------ rendering

  /** A rendered text, or an exception; `expansions` is how many references have been expanded by then. */
  datatype Outcome<T> = Done(value: T, expansions: nat) | Threw(expansions: nat)

  /** What stays fixed while a schema is rendered. */
  datatype Setting = Setting(root: Json, decode: string -> Option<string>)

  function IsArray(j: Option<Json>): bool {
    j.Some? && j.value.Arr?
  }

  function Keywords(members: seq<Member>): bool {
    || Get(members, "properties").Some? || Get(members, "additionalProperties").Some? || Get(members, "required").Some?
  }

  /** The alternatives an array-valued `type` stands for. */
  function Alternatives(members: seq<Member>, entries: seq<Json>): seq<Json> {
    seq(|entries|, i requires 0 <= i < |entries| => Obj(With(members, "type", entries[i])))
  }

  function PropertiesOf(members: seq<Member>): seq<Member> {
    match Get(members, "properties")
    case Some(Obj(properties)) => properties
    case _ => []
  }

  function ValuesOf(properties: seq<Member>, names: seq<string>): (values: seq<Json>)
    requires forall name | name in names :: Get(properties, name).Some?
    ensures |values| == |names|
  {
    seq(|names|, i requires 0 <= i < |names| => Get(properties, names[i]).value)
  }

  function IsRequired(members: seq<Member>, name: string): bool {
    match Get(members, "required")
    case Some(Arr(items)) => Str(name) in items
    case _ => false
  }

  function MemberTexts(members: seq<Member>, names: seq<string>, types: seq<string>): (texts: seq<string>)
    requires |names| == |types|
    ensures |texts| == |names|
  {
    seq(|names|, i requires 0 <= i < |names| =>
      PropertyKey(names[i]) + (if IsRequired(members, names[i]) then "" else "?") + ": " + types[i] + ";")
  }

  predicate Below(schemas: seq<Json>, bound: nat) {
    forall i | 0 <= i < |schemas| :: Size(schemas[i]) < bound
  }

  lemma ItemsBelow(items: seq<Json>, bound: nat)
    requires SizeOfItems(items) < bound
    ensures Below(items, bound)
  {
    forall i | 0 <= i < |items| ensures Size(items[i]) < bound {
      ItemIsSmaller(items, i);
    }
  }

  lemma ArrayBelow(members: seq<Member>, key: string)
    requires IsArray(Get(members, key))
    ensures Below(Get(members, key).value.items, Size(Obj(members)))
  {
    GetIsSmaller(members, key);
    ItemsBelow(Get(members, key).value.items, Size(Obj(members)));
  }

  lemma AlternativesBelow(members: seq<Member>, entries: seq<Json>)
    requires Get(members, "type") == Some(Arr(entries))
    ensures Below(Alternatives(members, entries), Size(Obj(members)))
  {
    forall i | 0 <= i < |entries| ensures Size(Alternatives(members, entries)[i]) < Size(Obj(members)) {
      EntryIsSmaller(members, "type", entries, i);
    }
  }

  lemma ValuesBelow(members: seq<Member>, names: seq<string>)
    requires forall name | name in names :: Get(PropertiesOf(members), name).Some?
    ensures Below(ValuesOf(PropertiesOf(members), names), Size(Obj(members)))
  {
    forall i | 0 <= i < |names| ensures Size(ValuesOf(PropertiesOf(members), names)[i]) < Size(Obj(members)) {
      assert names[i] in names;
      GetIsSmaller(PropertiesOf(members), names[i]);
      GetIsSmaller(members, "properties");
    }
  }

  /**
    `toType`. Termination needs both components: a reference costs one of 32 expansions and may lead
    anywhere, every other step is to a smaller schema, also where the spread copies all but one entry.
   */
  function TypeOf(schema: Json, s: Setting, resolving: set<string>, expansions: nat): (o: Outcome<string>)
    requires expansions <= MAX_REF_EXPANSIONS
    ensures expansions <= o.expansions <= MAX_REF_EXPANSIONS
    decreases MAX_REF_EXPANSIONS - expansions, Size(schema), 2, 0
  {
    if schema == Bool(false) then Done("never", expansions)
    else if !schema.Obj? then Done("unknown", expansions)
    else match Get(schema.members, "$ref")
      case Some(Str(ref)) =>
        if ref in resolving || expansions >= MAX_REF_EXPANSIONS then Done("unknown", expansions)
        else (match ResolveRef(ref, s.root, s.decode)
          case Malformed => Threw(expansions)
          case Missing => Done("unknown", expansions)
          case Found(target) => TypeOf(target, s, resolving + {ref}, expansions + 1))
      case _ => PlainTypeOf(schema.members, s, resolving, expansions)
  }

  /** A schema that is not a reference. */
  function PlainTypeOf(m: seq<Member>, s: Setting, resolving: set<string>, expansions: nat): (o: Outcome<string>)
    requires expansions <= MAX_REF_EXPANSIONS
    ensures expansions <= o.expansions <= MAX_REF_EXPANSIONS
    decreases MAX_REF_EXPANSIONS - expansions, Size(Obj(m)), 1, 2
  {
    var size := Size(Obj(m));
    if Get(m, "const").Some? then Done(Print(Get(m, "const").value), expansions)
    else if IsArray(Get(m, "enum")) then Done(UnionOf(Printed(Get(m, "enum").value.items)), expansions)
    else if IsArray(Get(m, "anyOf")) then
      ArrayBelow(m, "anyOf");
      Map(TypesOf(Get(m, "anyOf").value.items, size, s, resolving, expansions), UnionOf)
    else if IsArray(Get(m, "oneOf")) then
      ArrayBelow(m, "oneOf");
      Map(TypesOf(Get(m, "oneOf").value.items, size, s, resolving, expansions), UnionOf)
    else if IsArray(Get(m, "allOf")) then
      ArrayBelow(m, "allOf");
      Map(TypesOf(Get(m, "allOf").value.items, size, s, resolving, expansions), IntersectionOf)
    else TypeByName(m, s, resolving, expansions)
  }

  /** The cases of `type`. */
  function TypeByName(m: seq<Member>, s: Setting, resolving: set<string>, expansions: nat): (o: Outcome<string>)
    requires expansions <= MAX_REF_EXPANSIONS
    ensures expansions <= o.expansions <= MAX_REF_EXPANSIONS
    decreases MAX_REF_EXPANSIONS - expansions, Size(Obj(m)), 1, 1
  {
    match Get(m, "type")
    case Some(Arr(entries)) =>
      AlternativesBelow(m, entries);
      Map(TypesOf(Alternatives(m, entries), Size(Obj(m)), s, resolving, expansions), UnionOf)
    case Some(Str(name)) =>
      if name == "array" then ArrayTypeOf(m, s, resolving, expansions)
      else if name == "object" then ObjectTypeOf(m, s, resolving, expansions)
      else Done(Primitive(name), expansions)
    case Some(_) => Done("unknown", expansions)
    case None =>
      if Keywords(m) then ObjectTypeOf(m, s, resolving, expansions)
      else if Get(m, "items").Some? || Get(m, "prefixItems").Some? then ArrayTypeOf(m, s, resolving, expansions)
      else Done("unknown", expansions)
  }

  function Primitive(name: string): string {
    if name == "integer" then "number"
    else if name in {"string", "number", "boolean", "null"} then name
    else "unknown"
  }

  function Map(o: Outcome<seq<string>>, f: seq<string> -> string): Outcome<string> {
    match o
    case Done(types, expansions) => Done(f(types), expansions)
    case Threw(expansions) => Threw(expansions)
  }

  /** Schemas one after the other; all of them are smaller than `bound`. */
  function TypesOf(schemas: seq<Json>, bound: nat, s: Setting, resolving: set<string>,
      expansions: nat): (o: Outcome<seq<string>>)
    requires expansions <= MAX_REF_EXPANSIONS && Below(schemas, bound)
    ensures expansions <= o.expansions <= MAX_REF_EXPANSIONS
    ensures o.Done? ==> |o.value| == |schemas|
    decreases MAX_REF_EXPANSIONS - expansions, bound, 0, |schemas|
  {
    if schemas == [] then Done([], expansions) else
      var front := TypesOf(schemas[..|schemas| - 1], bound, s, resolving, expansions);
      if front.Threw? then front else
        var last := TypeOf(schemas[|schemas| - 1], s, resolving, front.expansions);
        if last.Threw? then Threw(last.expansions) else Done(front.value + [last.value], last.expansions)
  }

  /** The items of a tuple type. */
  function TupleOf(m: seq<Member>): (items: seq<Json>)
    ensures Below(items, Size(Obj(m)))
  {
    if IsArray(Get(m, "prefixItems")) then
      ArrayBelow(m, "prefixItems");
      Get(m, "prefixItems").value.items
    else if IsArray(Get(m, "items")) then
      ArrayBelow(m, "items");
      Get(m, "items").value.items
    else []
  }

  function TupleText(types: seq<string>): string {
    "[" + Join(types, ", ") + "]"
  }

  function ArrayTypeOf(m: seq<Member>, s: Setting, resolving: set<string>, expansions: nat): (o: Outcome<string>)
    requires expansions <= MAX_REF_EXPANSIONS
    ensures expansions <= o.expansions <= MAX_REF_EXPANSIONS
    decreases MAX_REF_EXPANSIONS - expansions, Size(Obj(m)), 1, 0
  {
    var items := Get(m, "items");
    if items.Some? && !items.value.Arr? then
      GetIsSmaller(m, "items");
      var item := TypeOf(items.value, s, resolving, expansions);
      if item.Threw? then item else Done("Array<" + item.value + ">", item.expansions)
    else if TupleOf(m) != [] then Map(TypesOf(TupleOf(m), Size(Obj(m)), s, resolving, expansions), TupleText)
    else Done("unknown[]", expansions)
  }

  function ObjectTypeOf(m: seq<Member>, s: Setting, resolving: set<string>, expansions: nat): (o: Outcome<string>)
    requires expansions <= MAX_REF_EXPANSIONS
    ensures expansions <= o.expansions <= MAX_REF_EXPANSIONS
    decreases MAX_REF_EXPANSIONS - expansions, Size(Obj(m)), 1, 0
  {
    var properties := PropertiesOf(m);
    var names := SortedKeys(properties);
    ValuesBelow(m, names);
    var types := TypesOf(ValuesOf(properties, names), Size(Obj(m)), s, resolving, expansions);
    if types.Threw? then Threw(types.expansions) else
      var extra := AdditionalOf(m, names == [], s, resolving, types.expansions);
      if extra.Threw? then Threw(extra.expansions) else
        Done(Layout(Descriptions(properties, names), MemberTexts(m, names, types.value) + extra.value),
            extra.expansions)
  }

  function Descriptions(properties: seq<Member>, names: seq<string>): (texts: seq<string>)
    requires forall name | name in names :: Get(properties, name).Some?
    ensures |texts| == |names|
  {
    seq(|names|, i requires 0 <= i < |names| => DescriptionOf(Get(properties, names[i]).value))
  }

  /** The index signature, if the object type has one. */
  function AdditionalOf(m: seq<Member>, empty: bool, s: Setting, resolving: set<string>,
      expansions: nat): (o: Outcome<seq<string>>)
    requires expansions <= MAX_REF_EXPANSIONS
    ensures expansions <= o.expansions <= MAX_REF_EXPANSIONS
    decreases MAX_REF_EXPANSIONS - expansions, Size(Obj(m)), 0, 0
  {
    var additional := Get(m, "additionalProperties");
    if additional.None? then Done(if empty then ["[key: string]: unknown;"] else [], expansions)
    else if additional.value == Bool(false) then Done([], expansions)
    else if additional.value == Bool(true) then Done(["[key: string]: unknown;"], expansions)
    else
      GetIsSmaller(m, "additionalProperties");
      var rendered := TypeOf(additional.value, s, resolving, expansions);
      if rendered.Threw? then Threw(rendered.expansions)
          else Done(["[key: string]: " + rendered.value + ";"], rendered.expansions)
  }

  lemma {:induction false} ThrowEndsAll(schemas: seq<Json>, n: nat, bound: nat, s: Setting, resolving: set<string>,
      expansions: nat)
    requires expansions <= MAX_REF_EXPANSIONS && Below(schemas, bound) && n <= |schemas|
    requires TypesOf(schemas[..n], bound, s, resolving, expansions).Threw?
    ensures TypesOf(schemas, bound, s, resolving, expansions) == TypesOf(schemas[..n], bound, s, resolving, expansions)
  {
    hide TypeOf;
    if n == |schemas| {
      assert schemas[..n] == schemas;
    } else {
      var front := schemas[..|schemas| - 1];
      assert front[..n] == schemas[..n];
      ThrowEndsAll(front, n, bound, s, resolving, expansions);
    }
  }

  // ------------------------------------------------------------------ the context

  class SchemaContext {
    const s: Setting
    /** References being expanded on the current path. */
    var resolving: set<string>
    var expansions: nat

    constructor (s: Setting)
      ensures this.s == s && resolving == {} && expansions == 0
    {
      this.s, resolving, expansions := s, {}, 0;
    }

    /** The result is that of the specification, the count as well, and `resolving` is what it was. */
    twostate predicate Gives(new text: Option<string>, new o: Outcome<string>)
      reads this
    {
      resolving == old(resolving) && expansions == o.expansions && text == if o.Done? then Some(o.value) else None
    }

    method ToType(schema: Json) returns (text: Option<string>)
      requires expansions <= MAX_REF_EXPANSIONS
      modifies this
      ensures Gives(text, TypeOf(schema, s, old(resolving), old(expansions)))
      decreases MAX_REF_EXPANSIONS - expansions, Size(schema), 2, 0
    {
      hide PlainTypeOf, ResolveRef;
      if schema == Bool(true) {
        return Some("unknown");
      }
      if schema == Bool(false) {
        return Some("never");
      }
      if !schema.Obj? {
        return Some("unknown");
      }
      var found := Get(schema.members, "$ref");
      if found.Some? && found.value.Str? {
        var ref := found.value.text;
        if ref in resolving || expansions >= MAX_REF_EXPANSIONS {
          return Some("unknown");
        }
        var target := ResolveRef(ref, s.root, s.decode);
        match target {
          case Malformed => return None;
          case Missing => return Some("unknown");
          case Found(found) =>
            expansions := expansions + 1;
            resolving := resolving + {ref};
            text := ToType(found);
            resolving := resolving - {ref};
        }
      } else {
        text := ToPlainType(schema.members);
      }
    }

    method ToPlainType(m: seq<Member>) returns (text: Option<string>)
      requires expansions <= MAX_REF_EXPANSIONS
      modifies this
      ensures Gives(text, PlainTypeOf(m, s, old(resolving), old(expansions)))
      decreases MAX_REF_EXPANSIONS - expansions, Size(Obj(m)), 1, 2
    {
      hide TypesOf, ArrayTypeOf, ObjectTypeOf, Keywords, UnionOf, Print, Size;
      if Get(m, "const").Some? {
        return Some(Print(Get(m, "const").value));
      }
      if IsArray(Get(m, "enum")) {
        return Some(UnionOf(Printed(Get(m, "enum").value.items)));
      }
      if IsArray(Get(m, "anyOf")) {
        ArrayBelow(m, "anyOf");
        var types := MapTypes(Get(m, "anyOf").value.items, Size(Obj(m)));
        return if types.None? then None else Some(UnionOf(types.value));
      }
      if IsArray(Get(m, "oneOf")) {
        ArrayBelow(m, "oneOf");
        var types := MapTypes(Get(m, "oneOf").value.items, Size(Obj(m)));
        return if types.None? then None else Some(UnionOf(types.value));
      }
      if IsArray(Get(m, "allOf")) {
        ArrayBelow(m, "allOf");
        var types := MapTypes(Get(m, "allOf").value.items, Size(Obj(m)));
        return if types.None? then None else Some(IntersectionOf(types.value));
      }
      text := ToTypeByName(m);
    }

    method ToTypeByName(m: seq<Member>) returns (text: Option<string>)
      requires expansions <= MAX_REF_EXPANSIONS
      modifies this
      ensures Gives(text, TypeByName(m, s, old(resolving), old(expansions)))
      decreases MAX_REF_EXPANSIONS - expansions, Size(Obj(m)), 1, 1
    {
      hide TypesOf, ArrayTypeOf, ObjectTypeOf, Keywords, UnionOf, Print, Size, Primitive;
      match Get(m, "type") {
        case Some(Arr(entries)) =>
          AlternativesBelow(m, entries);
          var types := MapTypes(Alternatives(m, entries), Size(Obj(m)));
          text := if types.None? then None else Some(UnionOf(types.value));
        case Some(Str(name)) =>
          if name == "array" {
            text := ToArrayType(m);
          } else if name == "object" {
            text := ToObjectType(m);
          } else {
            text := Some(Primitive(name));
          }
        case Some(_) => text := Some("unknown");
        case None =>
          if Keywords(m) {
            text := ToObjectType(m);
          } else if Get(m, "items").Some? || Get(m, "prefixItems").Some? {
            text := ToArrayType(m);
          } else {
            text := Some("unknown");
          }
      }
    }

    /** `schemas.map((schema) => toType(schema, context))`. */
    method MapTypes(schemas: seq<Json>, bound: nat) returns (types: Option<seq<string>>)
      requires expansions <= MAX_REF_EXPANSIONS && Below(schemas, bound)
      modifies this
      ensures var o := TypesOf(schemas, bound, s, old(resolving), old(expansions));
        && resolving == old(resolving) && expansions == o.expansions
        && types == if o.Done? then Some(o.value) else None
      decreases MAX_REF_EXPANSIONS - expansions, bound, 0, 0
    {
      var done: seq<string> := [];
      hide TypeOf, Size;
      assert schemas[..0] == [];
      for i := 0 to |schemas|
        invariant resolving == old(resolving) && old(expansions) <= expansions <= MAX_REF_EXPANSIONS
        invariant TypesOf(schemas[..i], bound, s, old(resolving), old(expansions)) == Done(done, expansions)
      {
        assert schemas[..i + 1][..i] == schemas[..i];
        var text := ToType(schemas[i]);
        if text.None? {
          ThrowEndsAll(schemas, i + 1, bound, s, old(resolving), old(expansions));
          return None;
        }
        done := done + [text.value];
      }
      assert schemas[..|schemas|] == schemas;
      types := Some(done);
    }

    method ToArrayType(m: seq<Member>) returns (text: Option<string>)
      requires expansions <= MAX_REF_EXPANSIONS
      modifies this
      ensures Gives(text, ArrayTypeOf(m, s, old(resolving), old(expansions)))
      decreases MAX_REF_EXPANSIONS - expansions, Size(Obj(m)), 1, 0
    {
      hide TypesOf, TypeOf, TupleText, TupleOf;
      var items := Get(m, "items");
      if items.Some? && !items.value.Arr? {
        GetIsSmaller(m, "items");
        text := ToType(items.value);
        if text.Some? {
          text := Some("Array<" + text.value + ">");
        }
        return;
      }
      var tuple := TupleOf(m);
      if |tuple| > 0 {
        var types := MapTypes(tuple, Size(Obj(m)));
        return if types.None? then None else Some(TupleText(types.value));
      }
      text := Some("unknown[]");
    }

    method ToObjectType(m: seq<Member>) returns (text: Option<string>)
      requires expansions <= MAX_REF_EXPANSIONS
      modifies this
      ensures Gives(text, ObjectTypeOf(m, s, old(resolving), old(expansions)))
      decreases MAX_REF_EXPANSIONS - expansions, Size(Obj(m)), 1, 0
    {
      hide TypesOf, TypeOf, AdditionalOf, Layout, Size, MemberTexts, Descriptions, SortedKeys, ValuesOf, PropertiesOf;
      var properties := PropertiesOf(m);
      var names := SortedKeys(properties);
      ValuesBelow(m, names);
      var types := MapTypes(ValuesOf(properties, names), Size(Obj(m)));
      if types.None? {
        return None;
      }
      var extra := ToAdditional(m, names == []);
      if extra.None? {
        return None;
      }
      text := Some(Layout(Descriptions(properties, names), MemberTexts(m, names, types.value) + extra.value));
    }

    method ToAdditional(m: seq<Member>, empty: bool) returns (extra: Option<seq<string>>)
      requires expansions <= MAX_REF_EXPANSIONS
      modifies this
      ensures var o := AdditionalOf(m, empty, s, old(resolving), old(expansions));
        && resolving == old(resolving) && expansions == o.expansions
        && extra == if o.Done? then Some(o.value) else None
      decreases MAX_REF_EXPANSIONS - expansions, Size(Obj(m)), 0, 0
    {
      hide TypeOf;
      var additional := Get(m, "additionalProperties");
      if additional.None? {
        return Some(if empty then ["[key: string]: unknown;"] else []);
      }
      if additional.value == Bool(false) {
        return Some([]);
      }
      var rendered := Some("unknown");
      assert "[key: string]: " + "unknown" + ";" == "[key: string]: unknown;";
      if additional.value != Bool(true) {
        GetIsSmaller(m, "additionalProperties");
        rendered := ToType(additional.value);
      }
      extra := if rendered.None? then None else Some(["[key: string]: " + rendered.value + ";"]);
    }
  }

  // ------------------------------------------------------------------ JSON pointers (RFC 6901)

  /** Section 3: `~` and `/` inside a token. */
  function Escape(token: string): string {
    if token == "" then "" else
      (if token[0] == '~' then "~0" else if token[0] == '/' then "~1" else [token[0]]) + Escape(token[1..])
  }

  function EscapeTildes(token: string): string {
    if token == "" then "" else (if token[0] == '~' then "~0" else [token[0]]) + EscapeTildes(token[1..])
  }

  lemma {:induction false} SlashesUndone(token: string)
    ensures Slashes(Escape(token)) == EscapeTildes(token)
  {
    if token != "" {
      var c, rest := token[0], Escape(token[1..]);
      SlashesUndone(token[1..]);
      hide EscapeTildes, Escape;
      SlashesStep(c, rest);
      assert Escape(token) == (if c == '~' then "~0" else if c == '/' then "~1" else [c]) + rest by {
        EscapeStep(token);
      }
      assert EscapeTildes(token) == (if c == '~' then "~0" else [c]) + EscapeTildes(token[1..]) by {
        EscapeStep(token);
      }
    }
  }

  lemma EscapeStep(token: string)
    requires token != ""
    ensures Escape(token) == (if token[0] == '~' then "~0" else if token[0] == '/' then "~1" else [token[0]]) +
        Escape(token[1..])
    ensures EscapeTildes(token) == (if token[0] == '~' then "~0" else [token[0]]) + EscapeTildes(token[1..])
  {
  }

  lemma SlashesStep(c: char, rest: string)
    ensures Slashes("~1" + rest) == "/" + Slashes(rest)
    ensures Slashes("~0" + rest) == "~0" + Slashes(rest)
    ensures c != '~' ==> Slashes([c] + rest) == [c] + Slashes(rest)
  {
    var zero, one, plain := "~0" + rest, "~1" + rest, [c] + rest;
    assert one[2..] == rest && zero[1..] == "0" + rest && plain[1..] == rest;
    assert ("0" + rest)[1..] == rest && Slashes("0" + rest) == "0" + Slashes(rest);
    assert Slashes(zero) == "~" + Slashes("0" + rest);
  }

  lemma {:induction false} TildesUndone(token: string)
    ensures Tildes(EscapeTildes(token)) == token
  {
    if token != "" {
      var c, rest, s := token[0], EscapeTildes(token[1..]), EscapeTildes(token);
      TildesUndone(token[1..]);
      if c == '~' {
        assert s == "~0" + rest && s[2..] == rest;
      } else {
        assert s == [c] + rest && s[1..] == rest;
      }
    }
  }

  /** Section 4: first `~1`, then `~0`, gives every token back. */
  lemma UnescapeInverts(token: string)
    ensures Unescape(Escape(token)) == token
  {
    SlashesUndone(token);
    TildesUndone(token);
  }

  /** In the other order the escaped form of `~1` would become a slash. */
  lemma OrderMatters()
    ensures Escape("~1") == "~01" && Unescape("~01") == "~1" && Slashes(Tildes("~01")) == "/"
  {
    UnescapeInverts("~1");
    assert "~1"[1..] == "1" && "1"[1..] == "" && Escape("1") == "1" && Escape("~1") == "~0" + Escape("1");
    assert "~01"[2..] == "1" && Tildes("1") == "1" && Tildes("~01") == "~" + Tildes("1");
    assert "~1"[2..] == "" && Slashes("~1") == "/" + Slashes("");
  }

  lemma {:induction false} EscapeHasNoSlash(token: string)
    ensures '/' !in Escape(token) && (token != "" ==> Escape(token) != "")
  {
    if token != "" {
      EscapeHasNoSlash(token[1..]);
    }
  }

  /** Section 6: `decode` undoes the percent-encoding of a token, which leaves no slash and loses no token. */
  ghost predicate Encodes(encode: string -> string, decode: string -> Option<string>) {
    forall x :: decode(encode(x)) == Some(x) && '/' !in encode(x) && (encode(x) == "" <==> x == "")
  }

  function Escaped(tokens: seq<string>, encode: string -> string): seq<string> {
    seq(|tokens|, i requires 0 <= i < |tokens| => encode(Escape(tokens[i])))
  }

  /** Parts with slashes between them. */
  function Slashed(parts: seq<string>): string {
    if parts == [] then "" else parts[0] + if |parts| == 1 then "" else "/" + Slashed(parts[1..])
  }

  /** A pointer as a URI fragment. */
  function PointerRef(tokens: seq<string>, encode: string -> string): string {
    if tokens == [] then "#" else "#/" + Slashed(Escaped(tokens, encode))
  }

  lemma {:induction false} SplitToken(token: string, rest: string)
    requires '/' !in token
    ensures Split(token) == [token] && Split(token + "/" + rest) == [token] + Split(rest)
  {
    if token == "" {
      assert token + "/" + rest == "/" + rest && ("/" + rest)[1..] == rest;
    } else {
      SplitToken(token[1..], rest);
      var s := token + "/" + rest;
      assert s[0] == token[0] && s[1..] == token[1..] + "/" + rest;
      assert [token[0]] + token[1..] == token;
      assert Split(s)[1..] == Split(rest);
    }
  }

  lemma {:induction false} SplitSlashed(parts: seq<string>)
    requires parts != [] && forall i | 0 <= i < |parts| :: '/' !in parts[i]
    ensures Split(Slashed(parts)) == parts
  {
    if |parts| == 1 {
      SplitToken(parts[0], "");
      assert Slashed(parts) == parts[0];
    } else {
      SplitSlashed(parts[1..]);
      SplitToken(parts[0], Slashed(parts[1..]));
      assert Slashed(parts) == parts[0] + "/" + Slashed(parts[1..]) && parts == [parts[0]] + parts[1..];
    }
  }

  /** Following object members. */
  function Follow(current: Json, tokens: seq<string>): Option<Json>
    decreases |tokens|
  {
    if tokens == [] then Some(current)
    else if !current.Obj? || Get(current.members, tokens[0]).None? then None
    else Follow(Get(current.members, tokens[0]).value, tokens[1..])
  }

  function AsSchema(value: Option<Json>): Resolution {
    if value.Some? && (value.value.Bool? || value.value.Obj?) then Found(value.value) else Missing
  }

  lemma {:induction false} WalkFollows(current: Json, tokens: seq<string>, encode: string -> string,
      decode: string -> Option<string>)
    requires Encodes(encode, decode)
    ensures Walk(current, NonEmpty(Escaped(tokens, encode)), decode) == AsSchema(Follow(current, NonEmpty(tokens)))
    decreases |tokens|
  {
    if tokens == [] {
      assert Escaped(tokens, encode) == [];
    } else {
      var parts := Escaped(tokens, encode);
      assert parts[1..] == Escaped(tokens[1..], encode) && parts[0] == encode(Escape(tokens[0]));
      EscapeHasNoSlash(tokens[0]);
      assert tokens[0] == "" ==> Escape(tokens[0]) == "";
      NonEmptyStep(parts);
      NonEmptyStep(tokens);
      UnescapeInverts(tokens[0]);
      hide Escape, Unescape, NonEmpty, Escaped;
      if tokens[0] == "" {
        WalkFollows(current, tokens[1..], encode, decode);
      } else {
        assert decode(parts[0]) == Some(Escape(tokens[0]));
        if current.Obj? && Get(current.members, tokens[0]).Some? {
          WalkFollows(Get(current.members, tokens[0]).value, tokens[1..], encode, decode);
        }
      }
    }
  }

  lemma NonEmptyStep(parts: seq<string>)
    requires parts != []
    ensures var rest := NonEmpty(parts[1..]);
      if parts[0] == "" then NonEmpty(parts) == rest
      else NonEmpty(parts) != [] && NonEmpty(parts)[0] == parts[0] && NonEmpty(parts)[1..] == rest
  {
  }

  /** What a pointer resolves to, exactly: the schema its non-empty tokens lead to through objects. */
  lemma PointerResolves(tokens: seq<string>, root: Json, encode: string -> string, decode: string -> Option<string>)
    requires Encodes(encode, decode)
    ensures ResolveRef(PointerRef(tokens, encode), root, decode) == AsSchema(Follow(root, NonEmpty(tokens)))
  {
    var parts := Escaped(tokens, encode);
    if tokens == [] {
      assert parts == [] && NonEmpty([""]) == [];
    } else {
      forall i | 0 <= i < |parts| ensures '/' !in parts[i] {
        assert parts[i] == encode(Escape(tokens[i]));
      }
      SplitSlashed(parts);
      assert PointerRef(tokens, encode)[2..] == Slashed(parts) && PointerRef(tokens, encode)[..2] == "#/";
    }
    hide Follow, Walk, Escaped, Slashed, Split;
    WalkFollows(root, tokens, encode, decode);
  }

  /** Section 4 of RFC 6901: object members by name, array elements by index. */
  function Evaluate(current: Json, tokens: seq<string>): Option<Json>
    decreases |tokens|
  {
    if tokens == [] then Some(current)
    else if current.Obj? && Get(current.members, tokens[0]).Some?
        then Evaluate(Get(current.members, tokens[0]).value, tokens[1..])
    else if current.Arr? && exists i :: 0 <= i < |current.items| && DigitsOf(i) == tokens[0] then
      IndexIsUnique(current.items, tokens[0]);
      var i :| 0 <= i < |current.items| && DigitsOf(i) == tokens[0];
      Evaluate(current.items[i], tokens[1..])
    else None
  }

  lemma IndexIsUnique(items: seq<Json>, token: string)
    ensures forall i, j | 0 <= i < |items| && 0 <= j < |items| && DigitsOf(i) == token && DigitsOf(j) == token :: i == j
  {
    forall i: nat, j: nat | i < |items| && j < |items| && DigitsOf(i) == token && DigitsOf(j) == token ensures i == j {
      DigitsRoundTrip(i);
      DigitsRoundTrip(j);
    }
  }

  /** No array lies on the path the tokens take. */
  predicate AvoidsArrays(current: Json, tokens: seq<string>)
    decreases |tokens|
  {
    tokens == [] || (!current.Arr? &&
      (current.Obj? && Get(current.members, tokens[0]).Some? ==> AvoidsArrays(Get(current.members, tokens[0]).value,
          tokens[1..])))
  }

  lemma {:induction false} FollowEvaluates(current: Json, tokens: seq<string>)
    ensures if AvoidsArrays(current, tokens) then Follow(current, tokens) == Evaluate(current, tokens)
            else Follow(current, tokens) == None
    decreases |tokens|
  {
    if tokens != [] && current.Obj? && Get(current.members, tokens[0]).Some? {
      FollowEvaluates(Get(current.members, tokens[0]).value, tokens[1..]);
    }
  }

  /**
    A pointer without empty tokens resolves as the standard says if and only if no array lies on its
    path, or the standard finds no schema behind that array either.
   */
  lemma AgreesWithStandard(tokens: seq<string>, root: Json, encode: string -> string, decode: string -> Option<string>)
    requires Encodes(encode, decode)
    requires forall i | 0 <= i < |tokens| :: tokens[i] != ""
    ensures ResolveRef(PointerRef(tokens, encode), root, decode) == AsSchema(Evaluate(root, tokens)) <==>
      AvoidsArrays(root, tokens) || AsSchema(Evaluate(root, tokens)) == Missing
  {
    PointerResolves(tokens, root, encode, decode);
    FollowEvaluates(root, tokens);
    AllStay(tokens);
  }

  /**
    Where code and standard part: at an array, behind which the code finds nothing; and at an empty
    token, which the code skips while the standard looks for a member with the empty name. From there
    on they agree only by what happens to be there: where there is such a member, the two go separate
    ways, and whether both end at the same schema has no simpler guard than comparing the two.
   */
  predicate Conforms(current: Json, tokens: seq<string>)
    decreases |tokens|
  {
    if tokens == [] then true
    else if tokens[0] == "" then
      var skipped := AsSchema(Follow(current, NonEmpty(tokens)));
      if current.Obj? && Get(current.members, "").Some?
      then skipped == AsSchema(Evaluate(Get(current.members, "").value, tokens[1..]))
      else skipped == Missing
    else if current.Arr? then AsSchema(Evaluate(current, tokens)) == Missing
    else current.Obj? && Get(current.members, tokens[0]).Some? ==>
      Conforms(Get(current.members, tokens[0]).value, tokens[1..])
  }

  lemma {:induction false} ConformsExactly(current: Json, tokens: seq<string>)
    ensures AsSchema(Follow(current, NonEmpty(tokens))) == AsSchema(Evaluate(current, tokens)) <==>
      Conforms(current, tokens)
    decreases |tokens|
  {
    if tokens != [] {
      NonEmptyStep(tokens);
      hide NonEmpty;
      if tokens[0] == "" {
        NoIndexIsEmpty(current);
      } else if current.Obj? && Get(current.members, tokens[0]).Some? {
        ConformsExactly(Get(current.members, tokens[0]).value, tokens[1..]);
      }
    }
  }

  lemma NoIndexIsEmpty(current: Json)
    ensures current.Arr? ==> forall i | 0 <= i < |current.items| :: DigitsOf(i) != ""
  {
    if current.Arr? {
      forall i | 0 <= i < |current.items| ensures DigitsOf(i) != "" {
        DigitsRoundTrip(i);
      }
    }
  }

  /** Any pointer resolves as the standard says exactly if it conforms at the first place where the two part. */
  lemma AgreesExactly(tokens: seq<string>, root: Json, encode: string -> string, decode: string -> Option<string>)
    requires Encodes(encode, decode)
    ensures ResolveRef(PointerRef(tokens, encode), root, decode) == AsSchema(Evaluate(root, tokens)) <==>
      Conforms(root, tokens)
  {
    PointerResolves(tokens, root, encode, decode);
    ConformsExactly(root, tokens);
    hide *;
  }

  /**
    In particular, an empty token that leads from an object without an empty name, or from anything but
    an object, sets the code apart from the standard if and only if the code finds a schema at all.
   */
  lemma {:induction false} EmptyTokenSetsApart(current: Json, tokens: seq<string>, k: nat)
    requires k < |tokens| && tokens[k] == "" && (forall i | 0 <= i < k :: tokens[i] != "")
    requires AvoidsArrays(current, tokens[..k]) && Evaluate(current, tokens[..k]).Some?
    requires var v := Evaluate(current, tokens[..k]).value; v.Obj? ==> Get(v.members, "").None?
    ensures Conforms(current, tokens) <==> AsSchema(Follow(current, NonEmpty(tokens))) == Missing
    decreases |tokens|
  {
    NonEmptyStep(tokens);
    hide NonEmpty, AsSchema;
    if k > 0 {
      assert tokens[..k][1..] == tokens[1..][..k - 1];
      EmptyTokenSetsApart(Get(current.members, tokens[0]).value, tokens[1..], k - 1);
    } else {
      assert tokens[..0] == [];
    }
  }

  lemma {:induction false} AllStay(parts: seq<string>)
    requires forall i | 0 <= i < |parts| :: parts[i] != ""
    ensures NonEmpty(parts) == parts
  {
    if parts != [] {
      AllStay(parts[1..]);
      assert [parts[0]] + parts[1..] == parts;
    }
  }

  /** An empty token names the member with the empty key; here it is skipped. */
  lemma EmptyTokenIsSkipped(encode: string -> string, decode: string -> Option<string>)
    requires Encodes(encode, decode)
    ensures var root := Obj([Member("", Bool(true))]);
      && ResolveRef(PointerRef([""], encode), root, decode) == Found(root)
      && AsSchema(Evaluate(root, [""])) == Found(Bool(true))
  {
    var root := Obj([Member("", Bool(true))]);
    PointerResolves([""], root, encode, decode);
    hide ResolveRef, PointerRef;
    assert NonEmpty([""]) == [];
    assert Evaluate(Bool(true), []) == Some(Bool(true));
  }

  /** An array element is never found. */
  lemma ArrayElementIsMissing(encode: string -> string, decode: string -> Option<string>)
    requires Encodes(encode, decode)
    ensures var root := Obj([Member("anyOf", Arr([Bool(true)]))]);
      && ResolveRef(PointerRef(["anyOf", "0"], encode), root, decode) == Missing
      && AsSchema(Evaluate(root, ["anyOf", "0"])) == Found(Bool(true))
  {
    var root := Obj([Member("anyOf", Arr([Bool(true)]))]);
    var tokens := ["anyOf", "0"];
    PointerResolves(tokens, root, encode, decode);
    AllStay(tokens);
    hide ResolveRef, PointerRef, NonEmpty;
    var inner := Arr([Bool(true)]);
    assert Get(root.members, "anyOf") == Some(inner);
    assert tokens[1..] == ["0"] && ["0"][1..] == [];
    assert Follow(inner, ["0"]) == None && Follow(root, tokens) == Follow(inner, tokens[1..]);
    assert DigitsOf(0) == "0";
    assert Evaluate(Bool(true), []) == Some(Bool(true));
    assert Evaluate(inner, ["0"]) == Some(Bool(true)) by {
      IndexIsUnique(inner.items, "0");
      assert 0 <= 0 < |inner.items| && DigitsOf(0) == "0";
    }
    assert Evaluate(root, tokens) == Evaluate(inner, tokens[1..]);
  }

  // ------------------------------------------------------------------ expansion preserves the type

  /** No reference anywhere inside. */
  predicate RefFree(j: Json) {
    match j
    case Arr(items) => forall i | 0 <= i < |items| :: RefFree(items[i])
    case Obj(members) =>
      && (Get(members, "$ref").Some? ==> !Get(members, "$ref").value.Str?)
      && forall i | 0 <= i < |members| :: RefFree(members[i].value)
    case _ => true
  }

  predicate AllRefFree(schemas: seq<Json>) {
    forall i | 0 <= i < |schemas| :: RefFree(schemas[i])
  }

  predicate MembersRefFree(members: seq<Member>) {
    forall i | 0 <= i < |members| :: RefFree(members[i].value)
  }

  lemma {:induction false} GetRefFree(members: seq<Member>, key: string)
    requires MembersRefFree(members) && Get(members, key).Some?
    ensures RefFree(Get(members, key).value)
  {
    if members[|members| - 1].key != key {
      GetRefFree(members[..|members| - 1], key);
    }
  }

  lemma {:induction false} WithoutRefFree(members: seq<Member>, key: string)
    requires MembersRefFree(members)
    ensures MembersRefFree(Without(members, key))
    ensures key != "$ref" ==> Get(Without(members, key), "$ref") == Get(members, "$ref")
  {
    if members != [] {
      var front, last := members[..|members| - 1], members[|members| - 1];
      WithoutRefFree(front, key);
      if last.key != key {
        var after := Without(front, key) + [last];
        assert after[..|after| - 1] == Without(front, key);
      }
    }
  }

  lemma AlternativesRefFree(members: seq<Member>, entries: seq<Json>)
    requires RefFree(Obj(members)) && Get(members, "type") == Some(Arr(entries))
    ensures AllRefFree(Alternatives(members, entries))
  {
    GetRefFree(members, "type");
    WithoutRefFree(members, "type");
    forall i | 0 <= i < |entries| ensures RefFree(Alternatives(members, entries)[i]) {
      var m := With(members, "type", entries[i]);
      assert m[..|m| - 1] == Without(members, "type") && RefFree(entries[i]);
    }
  }

  /** One rendering of a schema, wherever it stands: under these references, after so many expansions. */
  datatype Place = Place(s: Setting, resolving: set<string>, expansions: nat)

  ghost predicate Same<T>(a: Outcome<T>, p: Place, b: Outcome<T>, q: Place) {
    a.Done? && b.Done? && a.value == b.value && a.expansions == p.expansions && b.expansions == q.expansions
  }

  ghost predicate Within(p: Place) {
    p.expansions <= MAX_REF_EXPANSIONS
  }

  /** A schema without references renders to the same type everywhere, and costs no expansion. */
  lemma {:induction false} RefFreeAnywhere(schema: Json, p: Place, q: Place)
    requires RefFree(schema) && Within(p) && Within(q)
    ensures Same(TypeOf(schema, p.s, p.resolving, p.expansions), p, TypeOf(schema, q.s, q.resolving, q.expansions), q)
    decreases Size(schema), 3, 0
  {
    if schema.Obj? {
      PlainAnywhere(schema.members, p, q);
      hide PlainTypeOf, RefFree;
      assert Get(schema.members, "$ref").Some? ==> !Get(schema.members, "$ref").value.Str? by {
        NotAReference(schema);
      }
    }
  }

  lemma NotAReference(schema: Json)
    requires RefFree(schema) && schema.Obj?
    ensures Get(schema.members, "$ref").Some? ==> !Get(schema.members, "$ref").value.Str?
    ensures MembersRefFree(schema.members)
  {
  }

  lemma {:induction false} PlainAnywhere(m: seq<Member>, p: Place, q: Place)
    requires RefFree(Obj(m)) && Within(p) && Within(q)
    ensures Same(PlainTypeOf(m, p.s, p.resolving, p.expansions), p, PlainTypeOf(m, q.s, q.resolving, q.expansions), q)
    decreases Size(Obj(m)), 2, 0
  {
    NotAReference(Obj(m));
    hide TypesOf, TypeByName, UnionOf, IntersectionOf, Size, MembersRefFree, Print;
    if Get(m, "const").Some? || IsArray(Get(m, "enum")) {
    } else if IsArray(Get(m, "anyOf")) {
      VariantsAnywhere(m, "anyOf", p, q);
    } else if IsArray(Get(m, "oneOf")) {
      VariantsAnywhere(m, "oneOf", p, q);
    } else if IsArray(Get(m, "allOf")) {
      VariantsAnywhere(m, "allOf", p, q);
    } else {
      NamedAnywhere(m, p, q);
    }
  }

  lemma {:induction false} VariantsAnywhere(m: seq<Member>, key: string, p: Place, q: Place)
    requires RefFree(Obj(m)) && Within(p) && Within(q) && IsArray(Get(m, key))
    ensures Below(Get(m, key).value.items, Size(Obj(m)))
    ensures var items := Get(m, key).value.items;
      Same(TypesOf(items, Size(Obj(m)), p.s, p.resolving, p.expansions), p,
           TypesOf(items, Size(Obj(m)), q.s, q.resolving, q.expansions), q)
    decreases Size(Obj(m)), 1, 0
  {
    NotAReference(Obj(m));
    GetRefFree(m, key);
    ArrayBelow(m, key);
    hide TypesOf;
    TypesAnywhere(Get(m, key).value.items, Size(Obj(m)), p, q);
  }

  lemma {:induction false} TypesAnywhere(schemas: seq<Json>, bound: nat, p: Place, q: Place)
    requires AllRefFree(schemas) && Below(schemas, bound) && Within(p) && Within(q)
    ensures Same(TypesOf(schemas, bound, p.s, p.resolving, p.expansions), p,
                 TypesOf(schemas, bound, q.s, q.resolving, q.expansions), q)
    decreases bound, 0, |schemas|
  {
    if schemas != [] {
      var n := |schemas| - 1;
      TypesAnywhere(schemas[..n], bound, p, q);
      hide TypeOf, RefFree;
      RefFreeAnywhere(schemas[n], p, q);
    }
  }

  lemma {:induction false} NamedAnywhere(m: seq<Member>, p: Place, q: Place)
    requires RefFree(Obj(m)) && Within(p) && Within(q)
    ensures Same(TypeByName(m, p.s, p.resolving, p.expansions), p, TypeByName(m, q.s, q.resolving, q.expansions), q)
    decreases Size(Obj(m)), 1, 1
  {
    hide TypesOf, ArrayTypeOf, ObjectTypeOf, UnionOf, Primitive, Keywords, Size, RefFree, Alternatives;
    if IsArray(Get(m, "type")) {
      AlternativesAnywhere(m, Get(m, "type").value.items, p, q);
    } else {
      ArrayAnywhere(m, p, q);
      ObjectAnywhere(m, p, q);
    }
  }

  lemma {:induction false} AlternativesAnywhere(m: seq<Member>, entries: seq<Json>, p: Place, q: Place)
    requires RefFree(Obj(m)) && Within(p) && Within(q) && Get(m, "type") == Some(Arr(entries))
    ensures Below(Alternatives(m, entries), Size(Obj(m)))
    ensures Same(TypesOf(Alternatives(m, entries), Size(Obj(m)), p.s, p.resolving, p.expansions), p,
                 TypesOf(Alternatives(m, entries), Size(Obj(m)), q.s, q.resolving, q.expansions), q)
    decreases Size(Obj(m)), 1, 0
  {
    AlternativesBelow(m, entries);
    AlternativesRefFree(m, entries);
    hide TypesOf, Alternatives, RefFree;
    TypesAnywhere(Alternatives(m, entries), Size(Obj(m)), p, q);
  }

  lemma {:induction false} ArrayAnywhere(m: seq<Member>, p: Place, q: Place)
    requires RefFree(Obj(m)) && Within(p) && Within(q)
    ensures Same(ArrayTypeOf(m, p.s, p.resolving, p.expansions), p, ArrayTypeOf(m, q.s, q.resolving, q.expansions), q)
    decreases Size(Obj(m)), 1, 0
  {
    NotAReference(Obj(m));
    var items := Get(m, "items");
    hide TypesOf, TypeOf, TupleText;
    if items.Some? {
      GetRefFree(m, "items");
      GetIsSmaller(m, "items");
      RefFreeAnywhere(items.value, p, q);
    }
    if Get(m, "prefixItems").Some? {
      GetRefFree(m, "prefixItems");
    }
    TypesAnywhere(TupleOf(m), Size(Obj(m)), p, q);
  }

  lemma {:induction false} ObjectAnywhere(m: seq<Member>, p: Place, q: Place)
    requires RefFree(Obj(m)) && Within(p) && Within(q)
    ensures Same(ObjectTypeOf(m, p.s, p.resolving, p.expansions), p, ObjectTypeOf(m, q.s, q.resolving, q.expansions), q)
    decreases Size(Obj(m)), 1, 0
  {
    var properties := PropertiesOf(m);
    var names := SortedKeys(properties);
    ValuesBelow(m, names);
    ValuesRefFree(m, names);
    hide TypesOf, Layout, MemberTexts, Descriptions, AdditionalOf, Size, RefFree, SortedKeys, ValuesOf, PropertiesOf;
    TypesAnywhere(ValuesOf(properties, names), Size(Obj(m)), p, q);
    AdditionalAnywhere(m, names == [], p, q);
  }

  lemma ValuesRefFree(m: seq<Member>, names: seq<string>)
    requires RefFree(Obj(m)) && forall name | name in names :: Get(PropertiesOf(m), name).Some?
    ensures AllRefFree(ValuesOf(PropertiesOf(m), names))
  {
    NotAReference(Obj(m));
    if Get(m, "properties").Some? {
      GetRefFree(m, "properties");
    }
    assert MembersRefFree(PropertiesOf(m));
    forall i | 0 <= i < |names| ensures RefFree(ValuesOf(PropertiesOf(m), names)[i]) {
      assert names[i] in names;
      GetRefFree(PropertiesOf(m), names[i]);
    }
  }

  lemma {:induction false} AdditionalAnywhere(m: seq<Member>, empty: bool, p: Place, q: Place)
    requires RefFree(Obj(m)) && Within(p) && Within(q)
    ensures Same(AdditionalOf(m, empty, p.s, p.resolving, p.expansions), p,
        AdditionalOf(m, empty, q.s, q.resolving, q.expansions), q)
    decreases Size(Obj(m)), 0, 0
  {
    NotAReference(Obj(m));
    hide TypeOf;
    if Get(m, "additionalProperties").Some? {
      GetRefFree(m, "additionalProperties");
      GetIsSmaller(m, "additionalProperties");
      RefFreeAnywhere(Get(m, "additionalProperties").value, p, q);
    }
  }

  /** A reference to such a schema renders as the schema itself would, as long as the budget lasts. */
  lemma ReferenceIsInlined(m: seq<Member>, ref: string, target: Json, p: Place, q: Place)
    requires Get(m, "$ref") == Some(Str(ref)) && ref !in p.resolving && p.expansions < MAX_REF_EXPANSIONS && Within(q)
    requires ResolveRef(ref, p.s.root, p.s.decode) == Found(target) && RefFree(target)
    ensures Same(TypeOf(Obj(m), p.s, p.resolving, p.expansions), p.(expansions := p.expansions + 1),
                 TypeOf(target, q.s, q.resolving, q.expansions), q)
  {
    RefFreeAnywhere(target, Place(p.s, p.resolving + {ref}, p.expansions + 1), q);
    hide PlainTypeOf, ResolveRef, RefFree;
  }

  /** A schema that is a reference to itself, at any depth of expansion, renders as `unknown`. */
  lemma SelfReferenceIsUnknown(m: seq<Member>, ref: string, s: Setting)
    requires Get(m, "$ref") == Some(Str(ref)) && ResolveRef(ref, s.root, s.decode) == Found(Obj(m))
    ensures TypeOf(Obj(m), s, {}, 0) == Done("unknown", 1)
  {
    hide PlainTypeOf, ResolveRef;
    assert TypeOf(Obj(m), s, {} + {ref}, 1) == Done("unknown", 1);
  }
}
