/**
  What rendering a schema makes of its references: the type it would have if every reference were
  replaced by what it refers to (packages/codemode/src/declarations.ts).
 */
module Inlinings {
  import opened Wrappers
  import opened Json
  import opened Schemas

  /** Where a schema holds an array of schemas. */
  const LISTS: set<string> := {"anyOf", "oneOf", "allOf", "prefixItems", "items"}

  predicate IsReference(j: Json) {
    j.Obj? && Get(j.members, "$ref").Some? && Get(j.members, "$ref").value.Str?
  }

  /**
    The schema with every reference replaced by its target, and so on inside that; a reference to
    nothing becomes a schema without demands. `None` if a reference leads back to itself or is malformed;
    `depth` bounds how deep references may be nested.
   */
  function Inline(j: Json, s: Setting, resolving: set<string>, depth: nat): Option<Json>
    decreases depth, Size(j), 2
  {
    if !j.Obj? then Some(j)
    else match Get(j.members, "$ref")
      case Some(Str(ref)) =>
        if ref in resolving || depth == 0 then None
        else (match ResolveRef(ref, s.root, s.decode)
          case Malformed => None
          case Missing => Some(Bool(true))
          case Found(target) => Inline(target, s, resolving + {ref}, depth - 1))
      case _ =>
        var members := InlineMembers(j.members, s, resolving, depth);
        if members.None? then None else Some(Obj(members.value))
  }

  function InlineMembers(m: seq<Member>, s: Setting, resolving: set<string>, depth: nat): Option<seq<Member>>
    decreases depth, SizeOfMembers(m), 5
  {
    if m == [] then Some([]) else
      var n := |m| - 1;
      var front := InlineMembers(m[..n], s, resolving, depth);
      var value := InlineMember(m[n].key, m[n].value, s, resolving, depth);
      if front.None? || value.None? then None else Some(front.value + [Member(m[n].key, value.value)])
  }

  /** What stands under a keyword, where it is a schema or holds schemas. */
  function InlineMember(key: string, value: Json, s: Setting, resolving: set<string>, depth: nat): Option<Json>
    decreases depth, Size(value), 4
  {
    if key in LISTS && value.Arr? then
      var items := InlineAll(value.items, s, resolving, depth);
      if items.None? then None else Some(Arr(items.value))
    else if key == "items" then Inline(value, s, resolving, depth)
    else if key == "additionalProperties" then InlineInPlace(value, s, resolving, depth)
    else if key == "properties" && value.Obj? then
      var properties := InlineProperties(value.members, s, resolving, depth);
      if properties.None? then None else Some(Obj(properties.value))
    else Some(value)
  }

  function InlineAll(items: seq<Json>, s: Setting, resolving: set<string>, depth: nat): (r: Option<seq<Json>>)
    ensures r.Some? ==> |r.value| == |items|
    decreases depth, SizeOfItems(items), 5
  {
    if items == [] then Some([]) else
      var n := |items| - 1;
      var front, item := InlineAll(items[..n], s, resolving, depth), Inline(items[n], s, resolving, depth);
      if front.None? || item.None? then None else Some(front.value + [item.value])
  }

  function InlineProperties(m: seq<Member>, s: Setting, resolving: set<string>, depth: nat): Option<seq<Member>>
    decreases depth, SizeOfMembers(m), 5
  {
    if m == [] then Some([]) else
      var n := |m| - 1;
      var front := InlineProperties(m[..n], s, resolving, depth);
      var value := InlineInPlace(m[n].value, s, resolving, depth);
      if front.None? || value.None? then None else Some(front.value + [Member(m[n].key, value.value)])
  }

  /**
    A reference whose own description counts, or the fact that it is no plain `true` or `false`: the
    target becomes the one alternative of a schema in its place.
   */
  function InlineInPlace(j: Json, s: Setting, resolving: set<string>, depth: nat): Option<Json>
    decreases depth, Size(j), 3
  {
    var target := Inline(j, s, resolving, depth);
    if target.None? || !IsReference(j) then target
    else Some(Obj([Member("anyOf", Arr([target.value]))] + OwnDescription(j.members)))
  }

  function OwnDescription(m: seq<Member>): seq<Member> {
    match Get(m, "description")
    case Some(text) => [Member("description", text)]
    case None => []
  }

  // ------------------------------------------------------------------ what inlining keeps

  /** Each keyword stands for what its own value becomes. */
  lemma {:induction false} InlinedMember(m: seq<Member>, key: string, s: Setting, resolving: set<string>, depth: nat)
    requires InlineMembers(m, s, resolving, depth).Some?
    ensures var m' := InlineMembers(m, s, resolving, depth).value;
      if Get(m, key).None? then Get(m', key).None?
      else InlineMember(key, Get(m, key).value, s, resolving, depth).Some? &&
           Get(m', key) == InlineMember(key, Get(m, key).value, s, resolving, depth)
  {
    hide InlineMember;
    if m != [] {
      InlinedMember(m[..|m| - 1], key, s, resolving, depth);
    }
  }

  /** A keyword that holds no schema keeps its value. */
  lemma {:induction false} PlainMember(m: seq<Member>, key: string, s: Setting, resolving: set<string>, depth: nat)
    requires InlineMembers(m, s, resolving, depth).Some?
    requires key !in LISTS && key != "additionalProperties" && key != "properties"
    ensures Get(InlineMembers(m, s, resolving, depth).value, key) == Get(m, key)
  {
    InlinedMember(m, key, s, resolving, depth);
    hide InlineMembers;
  }

  /** A reference leads to a schema, never to an array. */
  lemma {:induction false} InlinedIsNoArray(j: Json, s: Setting, resolving: set<string>, depth: nat)
    requires Inline(j, s, resolving, depth).Some?
    ensures Inline(j, s, resolving, depth).value.Arr? <==> j.Arr?
    decreases depth
  {
    hide InlineMembers;
    if IsReference(j) {
      var ref := Get(j.members, "$ref").value.text;
      if ResolveRef(ref, s.root, s.decode).Found? {
        FoundIsSchema(ref, s);
        InlinedIsNoArray(ResolveRef(ref, s.root, s.decode).schema, s, resolving + {ref}, depth - 1);
      }
    }
  }

  lemma FoundIsSchema(ref: string, s: Setting)
    requires ResolveRef(ref, s.root, s.decode).Found?
    ensures !ResolveRef(ref, s.root, s.decode).schema.Arr?
  {
    hide NonEmpty, Split;
    WalkFindsSchema(s.root, NonEmpty(Split(if |ref| < 2 then "" else ref[2..])), s.decode);
  }

  lemma {:induction false} WalkFindsSchema(current: Json, segments: seq<string>, decode: string -> Option<string>)
    requires Walk(current, segments, decode).Found?
    ensures !Walk(current, segments, decode).schema.Arr?
    decreases |segments|
  {
    hide Unescape;
    if segments != [] {
      WalkFindsSchema(Get(current.members, Unescape(decode(segments[0]).value)).value, segments[1..], decode);
    }
  }

  /** The entry that replaces an array-valued `type` makes no difference to anything else. */
  lemma {:induction false} InlinedWithout(m: seq<Member>, s: Setting, resolving: set<string>, depth: nat)
    requires InlineMembers(m, s, resolving, depth).Some?
    ensures InlineMembers(Without(m, "type"), s, resolving, depth) ==
            Some(Without(InlineMembers(m, s, resolving, depth).value, "type"))
  {
    hide InlineMember;
    if m != [] {
      var n := |m| - 1;
      InlinedWithout(m[..n], s, resolving, depth);
      var front, m' := Without(m[..n], "type"), InlineMembers(m, s, resolving, depth).value;
      assert m'[..n] == InlineMembers(m[..n], s, resolving, depth).value by {
        InlinedLength(m[..n], s, resolving, depth);
      }
      assert (front + [m[n]])[..|front + [m[n]]| - 1] == front;
      InlinedLength(m[..n], s, resolving, depth);
    }
  }

  lemma {:induction false} InlinedLength(m: seq<Member>, s: Setting, resolving: set<string>, depth: nat)
    requires InlineMembers(m, s, resolving, depth).Some?
    ensures |InlineMembers(m, s, resolving, depth).value| == |m|
  {
    hide InlineMember;
    if m != [] {
      InlinedLength(m[..|m| - 1], s, resolving, depth);
    }
  }

  lemma {:induction false} InlinedWith(m: seq<Member>, entry: Json, s: Setting, resolving: set<string>, depth: nat)
    requires InlineMembers(m, s, resolving, depth).Some?
    ensures InlineMembers(With(m, "type", entry), s, resolving, depth) ==
            Some(With(InlineMembers(m, s, resolving, depth).value, "type", entry))
  {
    hide InlineMembers, Without;
    InlinedWithout(m, s, resolving, depth);
    InlinedAppend(Without(m, "type"), Member("type", entry), s, resolving, depth);
  }

  lemma {:induction false} InlinedAppend(m: seq<Member>, last: Member, s: Setting, resolving: set<string>, depth: nat)
    requires InlineMembers(m, s, resolving, depth).Some?
    ensures InlineMembers(m + [last], s, resolving, depth) ==
      match InlineMember(last.key, last.value, s, resolving, depth)
      case None => None
      case Some(value) => Some(InlineMembers(m, s, resolving, depth).value + [Member(last.key, value)])
  {
    hide InlineMember;
    var all := m + [last];
    assert all[..|all| - 1] == m && all[|all| - 1] == last;
  }

  // ------------------------------------------------------------------ rendering sees through references

  /** The same type, where the inlined schema costs no expansion. */
  ghost predicate Kept<T>(a: Outcome<T>, b: Outcome<T>, q: Place) {
    a.Done? && b.Done? && a.value == b.value && b.expansions == q.expansions
  }

  /**
    Rendering a schema gives the type of the schema with all its references inlined, as long as they
    do not use up the budget of expansions.
   */
  lemma {:induction false} InlineKeeps(j: Json, p: Place, depth: nat, q: Place)
    requires Within(p) && Within(q) && Inline(j, p.s, p.resolving, depth).Some?
    requires TypeOf(j, p.s, p.resolving, p.expansions).expansions < MAX_REF_EXPANSIONS
    ensures Kept(TypeOf(j, p.s, p.resolving, p.expansions),
                 TypeOf(Inline(j, p.s, p.resolving, depth).value, q.s, q.resolving, q.expansions), q)
    decreases depth, Size(j), 4, 0
  {
    hide PlainTypeOf, InlineMembers, ResolveRef;
    if IsReference(j) {
      var ref := Get(j.members, "$ref").value.text;
      if ResolveRef(ref, p.s.root, p.s.decode).Found? {
        InlineKeeps(ResolveRef(ref, p.s.root, p.s.decode).schema, Place(p.s, p.resolving + {ref}, p.expansions + 1),
                    depth - 1, q);
      }
    } else if j.Obj? {
      PlainMember(j.members, "$ref", p.s, p.resolving, depth);
      PlainKeeps(j.members, p, depth, q);
    }
  }

  lemma {:induction false} PlainKeeps(m: seq<Member>, p: Place, depth: nat, q: Place)
    requires Within(p) && Within(q) && !IsReference(Obj(m)) && InlineMembers(m, p.s, p.resolving, depth).Some?
    requires PlainTypeOf(m, p.s, p.resolving, p.expansions).expansions < MAX_REF_EXPANSIONS
    ensures Kept(PlainTypeOf(m, p.s, p.resolving, p.expansions),
                 PlainTypeOf(InlineMembers(m, p.s, p.resolving, depth).value, q.s, q.resolving, q.expansions), q)
    decreases depth, Size(Obj(m)), 3, 0
  {
    hide TypesOf, TypeByName, UnionOf, IntersectionOf, InlineMembers, Size, Print;
    PlainMember(m, "const", p.s, p.resolving, depth);
    PlainMember(m, "enum", p.s, p.resolving, depth);
    ListMember(m, "anyOf", p, depth);
    ListMember(m, "oneOf", p, depth);
    ListMember(m, "allOf", p, depth);
    if Get(m, "const").Some? || IsArray(Get(m, "enum")) {
    } else if IsArray(Get(m, "anyOf")) {
      ListKeeps(m, "anyOf", p, depth, q);
    } else if IsArray(Get(m, "oneOf")) {
      ListKeeps(m, "oneOf", p, depth, q);
    } else if IsArray(Get(m, "allOf")) {
      ListKeeps(m, "allOf", p, depth, q);
    } else {
      NamedKeeps(m, p, depth, q);
    }
  }

  /** An array of schemas stays one, each of its schemas inlined. */
  lemma {:induction false} ListMember(m: seq<Member>, key: string, p: Place, depth: nat)
    requires key in LISTS && InlineMembers(m, p.s, p.resolving, depth).Some?
    ensures var m' := InlineMembers(m, p.s, p.resolving, depth).value;
      && (Get(m, key).Some? <==> Get(m', key).Some?) && (IsArray(Get(m, key)) <==> IsArray(Get(m', key)))
      && (IsArray(Get(m, key)) ==>
            InlineAll(Get(m, key).value.items, p.s, p.resolving, depth) == Some(Get(m', key).value.items))
  {
    hide InlineMembers, InlineAll, Inline;
    InlinedMember(m, key, p.s, p.resolving, depth);
    if Get(m, key).Some? && key == "items" && !Get(m, key).value.Arr? {
      InlinedIsNoArray(Get(m, key).value, p.s, p.resolving, depth);
    }
  }

  lemma {:induction false} ListKeeps(m: seq<Member>, key: string, p: Place, depth: nat, q: Place)
    requires Within(p) && Within(q) && key in LISTS && IsArray(Get(m, key))
    requires InlineMembers(m, p.s, p.resolving, depth).Some?
    ensures var m' := InlineMembers(m, p.s, p.resolving, depth).value;
      && IsArray(Get(m', key))
      && Below(Get(m, key).value.items, Size(Obj(m))) && Below(Get(m', key).value.items, Size(Obj(m')))
      && var o := TypesOf(Get(m, key).value.items, Size(Obj(m)), p.s, p.resolving, p.expansions);
         o.expansions < MAX_REF_EXPANSIONS ==>
           Kept(o, TypesOf(Get(m', key).value.items, Size(Obj(m')), q.s, q.resolving, q.expansions), q)
    decreases depth, Size(Obj(m)), 1, 1
  {
    var m' := InlineMembers(m, p.s, p.resolving, depth).value;
    ListMember(m, key, p, depth);
    ArrayBelow(m, key);
    ArrayBelow(m', key);
    hide TypesOf, InlineMembers, Size;
    var o := TypesOf(Get(m, key).value.items, Size(Obj(m)), p.s, p.resolving, p.expansions);
    if o.expansions < MAX_REF_EXPANSIONS {
      AllInlined(Get(m, key).value.items, p, depth);
      TypesKeep(Get(m, key).value.items, Get(m', key).value.items, Size(Obj(m)), Size(Obj(m')), false, p, depth, q);
    }
  }

  /** `after` holds what the schemas become, each for itself or in its place. */
  ghost predicate Become(schemas: seq<Json>, after: seq<Json>, inPlace: bool, p: Place, depth: nat) {
    && |schemas| == |after|
    && forall i | 0 <= i < |schemas| ::
         (if inPlace then InlineInPlace(schemas[i], p.s, p.resolving, depth)
          else Inline(schemas[i], p.s, p.resolving, depth)) == Some(after[i])
  }

  lemma {:induction false} AllInlined(items: seq<Json>, p: Place, depth: nat)
    requires InlineAll(items, p.s, p.resolving, depth).Some?
    ensures Become(items, InlineAll(items, p.s, p.resolving, depth).value, false, p, depth)
  {
    hide Inline;
    if items != [] {
      AllInlined(items[..|items| - 1], p, depth);
    }
  }

  lemma {:induction false} TypesKeep(schemas: seq<Json>, after: seq<Json>, bound: nat, bound': nat, inPlace: bool,
                                     p: Place, depth: nat, q: Place)
    requires Within(p) && Within(q) && Below(schemas, bound) && Below(after, bound')
    requires Become(schemas, after, inPlace, p, depth)
    requires TypesOf(schemas, bound, p.s, p.resolving, p.expansions).expansions < MAX_REF_EXPANSIONS
    ensures Kept(TypesOf(schemas, bound, p.s, p.resolving, p.expansions),
                 TypesOf(after, bound', q.s, q.resolving, q.expansions), q)
    decreases depth, bound, 0, |schemas|
  {
    BecomeParts(schemas, after, inPlace, p, depth);
    hide TypeOf, Inline, InlineInPlace, Become;
    if schemas != [] {
      var n := |schemas| - 1;
      TypesKeep(schemas[..n], after[..n], bound, bound', inPlace, p, depth, q);
      var front := TypesOf(schemas[..n], bound, p.s, p.resolving, p.expansions);
      var p' := p.(expansions := front.expansions);
      if inPlace {
        InPlaceKeeps(schemas[n], p', depth, q);
      } else {
        InlineKeeps(schemas[n], p', depth, q);
      }
    }
  }

  lemma {:induction false} BecomeParts(schemas: seq<Json>, after: seq<Json>, inPlace: bool, p: Place, depth: nat)
    requires Become(schemas, after, inPlace, p, depth)
    ensures |schemas| == |after|
    ensures schemas != [] ==>
      var n := |schemas| - 1;
      && Become(schemas[..n], after[..n], inPlace, p, depth)
      && (if inPlace then InlineInPlace(schemas[n], p.s, p.resolving, depth)
          else Inline(schemas[n], p.s, p.resolving, depth)) == Some(after[n])
  {
    hide Inline, InlineInPlace;
  }

  /** In its place a schema keeps its type, its description, and whether it is a plain `true` or `false`. */
  lemma {:induction false} InPlaceKeeps(j: Json, p: Place, depth: nat, q: Place)
    requires Within(p) && Within(q) && InlineInPlace(j, p.s, p.resolving, depth).Some?
    requires TypeOf(j, p.s, p.resolving, p.expansions).expansions < MAX_REF_EXPANSIONS
    ensures Kept(TypeOf(j, p.s, p.resolving, p.expansions),
                 TypeOf(InlineInPlace(j, p.s, p.resolving, depth).value, q.s, q.resolving, q.expansions), q)
    decreases depth, Size(j), 5, 0
  {
    hide TypeOf, Inline;
    InlineKeeps(j, p, depth, q);
    if IsReference(j) {
      OneAlternative(Inline(j, p.s, p.resolving, depth).value, OwnDescription(j.members), q);
    }
  }

  lemma {:induction false} InPlaceLooksTheSame(j: Json, s: Setting, resolving: set<string>, depth: nat)
    requires InlineInPlace(j, s, resolving, depth).Some?
    ensures DescriptionOf(InlineInPlace(j, s, resolving, depth).value) == DescriptionOf(j)
    ensures InlineInPlace(j, s, resolving, depth).value.Bool? || j.Bool? ==>
      InlineInPlace(j, s, resolving, depth).value == j
  {
    hide InlineMembers, Trim;
    if IsReference(j) {
      OwnDescriptionStays(Inline(j, s, resolving, depth).value, j.members);
      hide Inline, Get, OwnDescription;
    } else if j.Obj? {
      PlainMember(j.members, "description", s, resolving, depth);
    }
  }

  /** A schema with a single alternative has the type of that. */
  lemma {:induction false} OneAlternative(b: Json, description: seq<Member>, q: Place)
    requires Within(q) && TypeOf(b, q.s, q.resolving, q.expansions).Done?
    requires TypeOf(b, q.s, q.resolving, q.expansions).expansions == q.expansions
    requires |description| <= 1 && forall d | d in description :: d.key == "description"
    ensures TypeOf(Obj([Member("anyOf", Arr([b]))] + description), q.s, q.resolving, q.expansions) ==
            TypeOf(b, q.s, q.resolving, q.expansions)
  {
    var m := [Member("anyOf", Arr([b]))] + description;
    var o := TypeOf(b, q.s, q.resolving, q.expansions);
    OneMember(b, description, "$ref");
    OneMember(b, description, "const");
    OneMember(b, description, "enum");
    OneMember(b, description, "anyOf");
    ArrayBelow(m, "anyOf");
    OneType(o.value);
    hide UnionOf, Get, Size;
    JustOne(b, Size(Obj(m)), q);
    assert PlainTypeOf(m, q.s, q.resolving, q.expansions) == o by {
      hide TypesOf, TypeOf;
    }
  }

  lemma {:induction false} JustOne(b: Json, bound: nat, q: Place)
    requires Within(q) && Below([b], bound)
    requires TypeOf(b, q.s, q.resolving, q.expansions).Done?
    ensures var o := TypeOf(b, q.s, q.resolving, q.expansions);
      TypesOf([b], bound, q.s, q.resolving, q.expansions) == Done([o.value], o.expansions)
  {
    hide TypeOf;
    var none: seq<Json>, one := [], [b];
    assert one[..|one| - 1] == none && one[|one| - 1] == b && Below(none, bound);
    var o := TypeOf(b, q.s, q.resolving, q.expansions);
    var texts: seq<string> := [];
    assert TypesOf(none, bound, q.s, q.resolving, q.expansions) == Done(texts, q.expansions);
    assert texts + [o.value] == [o.value];
    assert TypesOf(one, bound, q.s, q.resolving, q.expansions) == Done(texts + [o.value], o.expansions);
  }

  lemma {:induction false} OneMember(b: Json, description: seq<Member>, key: string)
    requires |description| <= 1 && forall d | d in description :: d.key == "description"
    requires key != "description"
    ensures Get([Member("anyOf", Arr([b]))] + description, key) == if key == "anyOf" then Some(Arr([b])) else None
  {
    var first := [Member("anyOf", Arr([b]))];
    assert first[..0] == [] && Get(first, key) == if key == "anyOf" then Some(Arr([b])) else None;
    if description == [] {
      assert first + description == first;
    } else {
      var all := first + description;
      assert |all| == 2 && all[1] == description[0] && description[0] in description && all[..1] == first;
    }
  }

  lemma {:induction false} OwnDescriptionStays(b: Json, m: seq<Member>)
    ensures Get([Member("anyOf", Arr([b]))] + OwnDescription(m), "description") == Get(m, "description")
  {
    var first := [Member("anyOf", Arr([b]))];
    var all := first + OwnDescription(m);
    assert first[..0] == [];
    if Get(m, "description").None? {
      assert all == first && Get(first, "description") == Get(first[..0], "description");
    } else {
      assert |all| == 2 && all[1] == Member("description", Get(m, "description").value);
    }
    hide Get;
  }

  lemma OneType(t: string)
    ensures UnionOf([t]) == t
  {
    assert [t][..0] == [];
    assert Unique([t]) == [t];
  }

  lemma {:induction false} NamedKeeps(m: seq<Member>, p: Place, depth: nat, q: Place)
    requires Within(p) && Within(q) && !IsReference(Obj(m)) && InlineMembers(m, p.s, p.resolving, depth).Some?
    requires TypeByName(m, p.s, p.resolving, p.expansions).expansions < MAX_REF_EXPANSIONS
    ensures Kept(TypeByName(m, p.s, p.resolving, p.expansions),
                 TypeByName(InlineMembers(m, p.s, p.resolving, depth).value, q.s, q.resolving, q.expansions), q)
    decreases depth, Size(Obj(m)), 2, 1
  {
    var m' := InlineMembers(m, p.s, p.resolving, depth).value;
    PlainMember(m, "type", p.s, p.resolving, depth);
    ListMember(m, "items", p, depth);
    ListMember(m, "prefixItems", p, depth);
    SameKeywords(m, p, depth);
    hide TypesOf, ArrayTypeOf, ObjectTypeOf, UnionOf, Primitive, Keywords, Size, InlineMembers, Alternatives;
    if IsArray(Get(m, "type")) {
      AlternativesKeep(m, Get(m, "type").value.items, p, depth, q);
    } else if Get(m, "type") == Some(Str("array")) {
      ArrayKeeps(m, p, depth, q);
    } else if Get(m, "type") == Some(Str("object")) {
      ObjectKeeps(m, p, depth, q);
    } else if Get(m, "type").None? {
      if Keywords(m) {
        ObjectKeeps(m, p, depth, q);
      } else if Get(m, "items").Some? || Get(m, "prefixItems").Some? {
        ArrayKeeps(m, p, depth, q);
      }
    }
  }

  lemma {:induction false} SameKeywords(m: seq<Member>, p: Place, depth: nat)
    requires InlineMembers(m, p.s, p.resolving, depth).Some?
    ensures Keywords(InlineMembers(m, p.s, p.resolving, depth).value) == Keywords(m)
  {
    hide InlineMembers, InlineMember;
    InlinedMember(m, "properties", p.s, p.resolving, depth);
    InlinedMember(m, "additionalProperties", p.s, p.resolving, depth);
    InlinedMember(m, "required", p.s, p.resolving, depth);
  }

  lemma {:induction false} AlternativesKeep(m: seq<Member>, entries: seq<Json>, p: Place, depth: nat, q: Place)
    requires Within(p) && Within(q) && !IsReference(Obj(m)) && Get(m, "type") == Some(Arr(entries))
    requires InlineMembers(m, p.s, p.resolving, depth).Some?
    ensures var m' := InlineMembers(m, p.s, p.resolving, depth).value;
      && Get(m', "type") == Some(Arr(entries))
      && Below(Alternatives(m, entries), Size(Obj(m))) && Below(Alternatives(m', entries), Size(Obj(m')))
      && var o := TypesOf(Alternatives(m, entries), Size(Obj(m)), p.s, p.resolving, p.expansions);
         o.expansions < MAX_REF_EXPANSIONS ==>
           Kept(o, TypesOf(Alternatives(m', entries), Size(Obj(m')), q.s, q.resolving, q.expansions), q)
    decreases depth, Size(Obj(m)), 1, 1
  {
    var m' := InlineMembers(m, p.s, p.resolving, depth).value;
    PlainMember(m, "type", p.s, p.resolving, depth);
    AlternativesBelow(m, entries);
    AlternativesBelow(m', entries);
    AlternativesBecome(m, entries, p, depth);
    hide TypesOf, InlineMembers, Size, Alternatives;
    var o := TypesOf(Alternatives(m, entries), Size(Obj(m)), p.s, p.resolving, p.expansions);
    if o.expansions < MAX_REF_EXPANSIONS {
      TypesKeep(Alternatives(m, entries), Alternatives(m', entries), Size(Obj(m)), Size(Obj(m')), false, p, depth, q);
    }
  }

  lemma {:induction false} AlternativesBecome(m: seq<Member>, entries: seq<Json>, p: Place, depth: nat)
    requires !IsReference(Obj(m)) && InlineMembers(m, p.s, p.resolving, depth).Some?
    ensures var m' := InlineMembers(m, p.s, p.resolving, depth).value;
      Become(Alternatives(m, entries), Alternatives(m', entries), false, p, depth)
  {
    hide InlineMembers, With;
    forall i | 0 <= i < |entries|
      ensures Inline(Alternatives(m, entries)[i], p.s, p.resolving, depth) ==
        Some(Alternatives(InlineMembers(m, p.s, p.resolving, depth).value, entries)[i])
    {
      InlinedWith(m, entries[i], p.s, p.resolving, depth);
      WithKeeps(m, "type", entries[i], "$ref");
    }
  }

  lemma {:induction false} WithKeeps(m: seq<Member>, key: string, value: Json, other: string)
    requires other != key
    ensures Get(With(m, key, value), other) == Get(m, other)
  {
    WithoutKeeps(m, key, other);
    var w := With(m, key, value);
    assert w[..|w| - 1] == Without(m, key);
  }

  lemma {:induction false} WithoutKeeps(m: seq<Member>, key: string, other: string)
    requires other != key
    ensures Get(Without(m, key), other) == Get(m, other)
  {
    if m != [] {
      var n := |m| - 1;
      WithoutKeeps(m[..n], key, other);
      if m[n].key != key {
        var w := Without(m[..n], key) + [m[n]];
        assert w[..|w| - 1] == Without(m[..n], key);
      }
    }
  }

  lemma {:induction false} ArrayKeeps(m: seq<Member>, p: Place, depth: nat, q: Place)
    requires Within(p) && Within(q) && InlineMembers(m, p.s, p.resolving, depth).Some?
    requires ArrayTypeOf(m, p.s, p.resolving, p.expansions).expansions < MAX_REF_EXPANSIONS
    ensures Kept(ArrayTypeOf(m, p.s, p.resolving, p.expansions),
                 ArrayTypeOf(InlineMembers(m, p.s, p.resolving, depth).value, q.s, q.resolving, q.expansions), q)
    decreases depth, Size(Obj(m)), 2, 0
  {
    var m' := InlineMembers(m, p.s, p.resolving, depth).value;
    ListMember(m, "items", p, depth);
    ListMember(m, "prefixItems", p, depth);
    InlinedMember(m, "items", p.s, p.resolving, depth);
    var items := Get(m, "items");
    if items.Some? && !items.value.Arr? {
      GetIsSmaller(m, "items");
      GetIsSmaller(m', "items");
      hide InlineMembers, TypeOf, TypesOf, TupleText, Inline;
      InlineKeeps(items.value, p, depth, q);
    } else {
      var key := if IsArray(Get(m, "prefixItems")) then "prefixItems" else "items";
      hide InlineMembers, TypeOf, TypesOf, TupleText, Inline;
      if IsArray(Get(m, key)) {
        ListKeeps(m, key, p, depth, q);
        assert TupleOf(m) == Get(m, key).value.items && TupleOf(m') == Get(m', key).value.items;
      }
    }
  }

  lemma {:induction false} ObjectKeeps(m: seq<Member>, p: Place, depth: nat, q: Place)
    requires Within(p) && Within(q) && InlineMembers(m, p.s, p.resolving, depth).Some?
    requires ObjectTypeOf(m, p.s, p.resolving, p.expansions).expansions < MAX_REF_EXPANSIONS
    ensures Kept(ObjectTypeOf(m, p.s, p.resolving, p.expansions),
                 ObjectTypeOf(InlineMembers(m, p.s, p.resolving, depth).value, q.s, q.resolving, q.expansions), q)
    decreases depth, Size(Obj(m)), 2, 0
  {
    var m' := InlineMembers(m, p.s, p.resolving, depth).value;
    var properties, names := PropertiesOf(m), SortedKeys(PropertiesOf(m));
    var properties' := PropertiesOf(m');
    PropertiesBecome(m, p, depth);
    SameKeys(properties, p, depth);
    ValuesBelow(m, names);
    ValuesBelow(m', names);
    ValuesBecome(properties, names, p, depth);
    SameTexts(m, properties, names, p, depth);
    hide TypesOf, Layout, MemberTexts, Descriptions, AdditionalOf, Size, SortedKeys, ValuesOf, PropertiesOf,
         InlineMembers, InlineProperties;
    var types := TypesOf(ValuesOf(properties, names), Size(Obj(m)), p.s, p.resolving, p.expansions);
    TypesKeep(ValuesOf(properties, names), ValuesOf(properties', names), Size(Obj(m)), Size(Obj(m')), true, p, depth,
              q);
    AdditionalKeeps(m, names == [], p.(expansions := types.expansions), depth, q);
  }

  lemma {:induction false} PropertiesBecome(m: seq<Member>, p: Place, depth: nat)
    requires InlineMembers(m, p.s, p.resolving, depth).Some?
    ensures InlineProperties(PropertiesOf(m), p.s, p.resolving, depth) ==
            Some(PropertiesOf(InlineMembers(m, p.s, p.resolving, depth).value))
  {
    hide InlineMembers;
    InlinedMember(m, "properties", p.s, p.resolving, depth);
  }

  lemma {:induction false} SameKeys(properties: seq<Member>, p: Place, depth: nat)
    requires InlineProperties(properties, p.s, p.resolving, depth).Some?
    ensures SortedKeys(InlineProperties(properties, p.s, p.resolving, depth).value) == SortedKeys(properties)
  {
    hide InlineInPlace, Insert;
    if properties != [] {
      SameKeys(properties[..|properties| - 1], p, depth);
      var after := InlineProperties(properties, p.s, p.resolving, depth).value;
      assert after[..|after| - 1] == InlineProperties(properties[..|properties| - 1], p.s, p.resolving, depth).value;
    }
  }

  lemma {:induction false} PropertyBecomes(properties: seq<Member>, name: string, p: Place, depth: nat)
    requires InlineProperties(properties, p.s, p.resolving, depth).Some?
    ensures var after := InlineProperties(properties, p.s, p.resolving, depth).value;
      if Get(properties, name).None? then Get(after, name).None?
      else InlineInPlace(Get(properties, name).value, p.s, p.resolving, depth).Some? &&
           Get(after, name) == InlineInPlace(Get(properties, name).value, p.s, p.resolving, depth)
  {
    hide InlineInPlace;
    if properties != [] {
      PropertyBecomes(properties[..|properties| - 1], name, p, depth);
    }
  }

  lemma {:induction false} ValuesBecome(properties: seq<Member>, names: seq<string>, p: Place, depth: nat)
    requires InlineProperties(properties, p.s, p.resolving, depth).Some?
    requires forall name | name in names :: Get(properties, name).Some?
    ensures var after := InlineProperties(properties, p.s, p.resolving, depth).value;
      && (forall name | name in names :: Get(after, name).Some?)
      && Become(ValuesOf(properties, names), ValuesOf(after, names), true, p, depth)
      && Descriptions(after, names) == Descriptions(properties, names)
  {
    hide InlineProperties, InlineInPlace, DescriptionOf;
    var after := InlineProperties(properties, p.s, p.resolving, depth).value;
    forall name | name in names
      ensures Get(after, name) == InlineInPlace(Get(properties, name).value, p.s, p.resolving, depth)
      ensures Get(after, name).Some?
      ensures DescriptionOf(Get(after, name).value) == DescriptionOf(Get(properties, name).value)
    {
      PropertyBecomes(properties, name, p, depth);
      InPlaceLooksTheSame(Get(properties, name).value, p.s, p.resolving, depth);
    }
    assert forall i | 0 <= i < |names| :: names[i] in names;
  }

  lemma {:induction false} SameTexts(m: seq<Member>, properties: seq<Member>, names: seq<string>, p: Place, depth: nat)
    requires InlineMembers(m, p.s, p.resolving, depth).Some?
    ensures forall types: seq<string> | |types| == |names| ::
      MemberTexts(InlineMembers(m, p.s, p.resolving, depth).value, names, types) == MemberTexts(m, names, types)
  {
    hide InlineMembers, PropertyKey;
    PlainMember(m, "required", p.s, p.resolving, depth);
  }

  lemma {:induction false} AdditionalKeeps(m: seq<Member>, empty: bool, p: Place, depth: nat, q: Place)
    requires Within(p) && Within(q) && InlineMembers(m, p.s, p.resolving, depth).Some?
    requires AdditionalOf(m, empty, p.s, p.resolving, p.expansions).expansions < MAX_REF_EXPANSIONS
    ensures Kept(AdditionalOf(m, empty, p.s, p.resolving, p.expansions),
                 AdditionalOf(InlineMembers(m, p.s, p.resolving, depth).value, empty, q.s, q.resolving, q.expansions),
                 q)
    decreases depth, Size(Obj(m)), 1, 0
  {
    var m' := InlineMembers(m, p.s, p.resolving, depth).value;
    InlinedMember(m, "additionalProperties", p.s, p.resolving, depth);
    hide TypeOf, InlineMembers, InlineInPlace;
    if Get(m, "additionalProperties").Some? {
      var value := Get(m, "additionalProperties").value;
      InPlaceLooksTheSame(value, p.s, p.resolving, depth);
      GetIsSmaller(m, "additionalProperties");
      GetIsSmaller(m', "additionalProperties");
      if !value.Bool? {
        InPlaceKeeps(value, p, depth, q);
      }
    }
  }

  /** The type of a schema is that of the schema with its references inlined, whose rendering meets none. */
  lemma {:induction false} TypeIsInlined(schema: Json, s: Setting, depth: nat)
    requires Inline(schema, s, {}, depth).Some? && TypeOf(schema, s, {}, 0).expansions < MAX_REF_EXPANSIONS
    ensures TypeOf(schema, s, {}, 0).Done?
    ensures TypeOf(Inline(schema, s, {}, depth).value, s, {}, 0) == Done(TypeOf(schema, s, {}, 0).value, 0)
  {
    InlineKeeps(schema, Place(s, {}, 0), depth, Place(s, {}, 0));
    hide TypeOf, Inline;
  }
}
