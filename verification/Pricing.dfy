/**
  Price brackets compiled to context tiers, and the tier a request is charged by
  (packages/ai/scripts/catalog-pricing.ts, packages/ai/src/models.ts).
 */
module Pricing {
  import opened Wrappers

  const MAX_SAFE_INTEGER: nat := 9007199254740991

  datatype Rates = Rates(input: real, output: real, cacheRead: real, cacheWrite: real)

  datatype Tier = Tier(inputTokensAbove: int, rates: Rates)

  datatype ModelCost = ModelCost(base: Rates, tiers: seq<Tier>)

  // ------------------------------------------------------------------ brackets

  /** Bounds as they were published; `amount` is the price read as a number, if it is one. */
  datatype Bracket = Bracket(amount: Option<real>, min: Option<real>, max: Option<real>)

  /** Prices per token and brackets, by rate field. */
  datatype GatewayPricing = GatewayPricing(
    input: Option<real>, output: Option<real>, cacheRead: Option<real>, cacheWrite: Option<real>,
    inputTiers: seq<Bracket>, outputTiers: seq<Bracket>, cacheReadTiers: seq<Bracket>, cacheWriteTiers: seq<Bracket>)

  predicate TokenCount(value: real) {
    value == value.Floor as real && 0.0 <= value <= MAX_SAFE_INTEGER as real
  }

  /** Malformed brackets and empty ones are ignored. */
  predicate Usable(b: Bracket) {
    && TokenCount(if b.min.Some? then b.min.value else 0.0)
    && (b.max.Some? ==> TokenCount(b.max.value) && b.max.value > if b.min.Some? then b.min.value else 0.0)
  }

  type UsableBracket = b: Bracket | Usable(b) witness Bracket(None, None, None)

  function First(b: UsableBracket): nat {
    if b.min.Some? then b.min.value.Floor else 0
  }

  /** The minimum is inclusive, the maximum exclusive. */
  predicate Covers(b: UsableBracket, tokens: nat) {
    First(b) <= tokens && (b.max.Some? ==> tokens < b.max.value.Floor)
  }

  function UsableOnly(brackets: seq<Bracket>): seq<UsableBracket> {
    if brackets == [] then [] else
      (if Usable(brackets[0]) then [brackets[0]] else []) + UsableOnly(brackets[1..])
  }

  /** A price per million tokens; `round` is the rounding to six digits. */
  function Rate(amount: Option<real>, fallback: real, round: real -> real): real {
    if amount.None? || amount.value < 0.0 then fallback else round(amount.value * 1000000.0)
  }

  /** The first bracket that covers the total. */
  function Find(brackets: seq<UsableBracket>, tokens: nat): Option<UsableBracket> {
    if brackets == [] then None else if Covers(brackets[0], tokens) then Some(brackets[0])
        else Find(brackets[1..], tokens)
  }

  function RateAt(brackets: seq<UsableBracket>, base: real, tokens: nat, round: real -> real): real {
    var b := Find(brackets, tokens);
    Rate(if b.Some? then b.value.amount else None, base, round)
  }

  function Fields(p: GatewayPricing): (f: seq<seq<UsableBracket>>)
    ensures |f| == 4
  {
    [UsableOnly(p.inputTiers), UsableOnly(p.outputTiers), UsableOnly(p.cacheReadTiers), UsableOnly(p.cacheWriteTiers)]
  }

  function BaseRates(p: GatewayPricing, round: real -> real): Rates {
    Rates(Rate(p.input, 0.0, round), Rate(p.output, 0.0, round), Rate(p.cacheRead, 0.0, round),
        Rate(p.cacheWrite, 0.0, round))
  }

  /** The direct lookup: each rate from the first of its brackets that covers the total. */
  function RatesAt(p: GatewayPricing, tokens: nat, round: real -> real): Rates {
    var base, f := BaseRates(p, round), Fields(p);
    Rates(RateAt(f[0], base.input, tokens, round), RateAt(f[1], base.output, tokens, round),
          RateAt(f[2], base.cacheRead, tokens, round), RateAt(f[3], base.cacheWrite, tokens, round))
  }

  // ------------------------------------------------------------------ compiling brackets to tiers

  /** Where the rates may change because of one bracket. */
  function Bounds(b: UsableBracket): (s: set<nat>)
    ensures forall x | x in s :: x > 0
  {
    (if First(b) > 0 then {First(b)} else {}) + (if b.max.Some? then {b.max.value.Floor as nat} else {})
  }

  function BoundsOf(brackets: seq<UsableBracket>): (s: set<nat>)
    ensures forall x | x in s :: x > 0
  {
    if brackets == [] then {} else
      BoundsOf(brackets[..|brackets| - 1]) + Bounds(brackets[|brackets| - 1])
  }

  function BoundsOfAll(fields: seq<seq<UsableBracket>>): (s: set<nat>)
    ensures forall x | x in s :: x > 0
  {
    if fields == [] then {} else BoundsOfAll(fields[..|fields| - 1]) + BoundsOf(fields[|fields| - 1])
  }

  function Starts(p: GatewayPricing): (s: set<nat>)
    ensures forall x | x in s :: x > 0
  {
    BoundsOfAll(Fields(p))
  }

  predicate Ascending(s: seq<nat>) {
    forall i, j | 0 <= i < j < |s| :: s[i] < s[j]
  }

  /** `a.sort((x, y) => x - y)` of the elements of a set. */
  method Sorted(elements: set<nat>) returns (sorted: seq<nat>)
    ensures Ascending(sorted) && forall x :: x in sorted <==> x in elements
  {
    sorted := [];
    var rest := elements;
    while rest != {}
      invariant Ascending(sorted) && rest <= elements
      invariant forall x :: x in sorted <==> x in elements && x !in rest
      decreases |rest|
    {
      var x :| x in rest;
      var i := 0;
      while i < |sorted| && sorted[i] < x
        invariant i <= |sorted| && forall j | 0 <= j < i :: sorted[j] < x
      {
        i := i + 1;
      }
      assert x !in sorted;
      assert i < |sorted| ==> sorted[i] in sorted;
      ghost var before := sorted;
      sorted := sorted[..i] + [x] + sorted[i..];
      Inserted(before, x, i);
      rest := rest - {x};
    }
  }

  lemma Inserted(s: seq<nat>, x: nat, i: nat)
    requires Ascending(s) && i <= |s| && (forall j | 0 <= j < i :: s[j] < x) && (i < |s| ==> x < s[i])
    ensures var t := s[..i] + [x] + s[i..]; Ascending(t) && forall y :: y in t <==> y in s || y == x
  {
    var t := s[..i] + [x] + s[i..];
    assert forall y :: y in s <==> y in s[..i] || y in s[i..] by {
      assert s == s[..i] + s[i..];
    }
  }

  function CostFrom(p: GatewayPricing, sorted: seq<nat>, round: real -> real): ModelCost {
    ModelCost(RatesAt(p, 0, round),
        seq(|sorted|, i requires 0 <= i < |sorted| => Tier(sorted[i] as int - 1, RatesAt(p, sorted[i], round))))
  }

  ghost predicate SameElements(s: seq<nat>, elements: set<nat>) {
    forall x :: x in s <==> x in elements
  }

  /** One tier per boundary, in order, each with the rates that hold from it on. */
  ghost predicate IsCompiled(p: GatewayPricing, round: real -> real, cost: ModelCost) {
    exists sorted :: Ascending(sorted) && SameElements(sorted, Starts(p)) && cost == CostFrom(p, sorted, round)
  }

  method AddBounds(starts: set<nat>, brackets: seq<UsableBracket>) returns (all: set<nat>)
    ensures all == starts + BoundsOf(brackets)
  {
    all := starts;
    assert brackets[..0] == [];
    for i := 0 to |brackets|
      invariant all == starts + BoundsOf(brackets[..i])
    {
      assert brackets[..i + 1][..i] == brackets[..i];
      if First(brackets[i]) > 0 {
        all := all + {First(brackets[i])};
      }
      if brackets[i].max.Some? {
        all := all + {brackets[i].max.value.Floor};
      }
    }
    assert brackets[..|brackets|] == brackets;
  }

  method GetAiGatewayCost(p: GatewayPricing, round: real -> real) returns (cost: ModelCost)
    ensures IsCompiled(p, round, cost)
  {
    var fields := Fields(p);
    var starts: set<nat> := {};
    hide RatesAt, BoundsOf, Fields, Ascending;
    assert fields[..0] == [];
    for f := 0 to |fields|
      invariant starts == BoundsOfAll(fields[..f])
    {
      assert fields[..f + 1][..f] == fields[..f];
      starts := AddBounds(starts, fields[f]);
    }
    assert fields[..|fields|] == fields;
    var sorted := Sorted(starts);
    cost := CostFrom(p, sorted, round);
    assert SameElements(sorted, Starts(p));
  }

  // ------------------------------------------------------------------ selecting a tier

  /** The first of the tiers with the greatest threshold below the total. */
  function Pick(tiers: seq<Tier>, tokens: nat): (k: Option<nat>)
    ensures k.Some? ==> k.value < |tiers|
  {
    if tiers == [] then None else
      var n := |tiers| - 1;
      var k := Pick(tiers[..n], tokens);
      var threshold := if k.Some? then tiers[k.value].inputTokensAbove else -1;
      if tokens > tiers[n].inputTokensAbove && tiers[n].inputTokensAbove > threshold then Some(n) else k
  }

  function Selected(cost: ModelCost, tokens: nat): Rates {
    var k := Pick(cost.tiers, tokens);
    if k.Some? then cost.tiers[k.value].rates else cost.base
  }

  lemma {:induction false} PickIsBest(tiers: seq<Tier>, tokens: nat)
    ensures var k := Pick(tiers, tokens);
      && (k.Some? ==> -1 < tiers[k.value].inputTokensAbove < tokens)
      && (forall i | 0 <= i < |tiers| && -1 < tiers[i].inputTokensAbove < tokens ::
            k.Some? && tiers[i].inputTokensAbove <= tiers[k.value].inputTokensAbove)
  {
    if tiers != [] {
      PickIsBest(tiers[..|tiers| - 1], tokens);
    }
  }

  // ------------------------------------------------------------------ exactness

  lemma {:induction false} BoundsAreIn(brackets: seq<UsableBracket>, i: nat)
    requires i < |brackets|
    ensures Bounds(brackets[i]) <= BoundsOf(brackets)
  {
    if i < |brackets| - 1 {
      BoundsAreIn(brackets[..|brackets| - 1], i);
    }
  }

  lemma {:induction false} FieldsAreIn(fields: seq<seq<UsableBracket>>, i: nat)
    requires i < |fields|
    ensures BoundsOf(fields[i]) <= BoundsOfAll(fields)
  {
    if i < |fields| - 1 {
      FieldsAreIn(fields[..|fields| - 1], i);
    }
  }

  ghost predicate NoneWithin(bounds: set<nat>, from: nat, to: nat) {
    forall x | x in bounds :: x <= from || to < x
  }

  /** Between two boundaries nothing changes. */
  lemma {:induction false} SameBracket(brackets: seq<UsableBracket>, from: nat, to: nat)
    requires from <= to && forall i | 0 <= i < |brackets| :: NoneWithin(Bounds(brackets[i]), from, to)
    ensures Find(brackets, from) == Find(brackets, to)
  {
    if brackets != [] {
      var b := brackets[0];
      assert NoneWithin(Bounds(b), from, to);
      assert First(b) > 0 ==> First(b) in Bounds(b);
      assert b.max.Some? ==> b.max.value.Floor in Bounds(b);
      SameBracket(brackets[1..], from, to);
    }
  }

  lemma SameField(brackets: seq<UsableBracket>, from: nat, to: nat)
    requires from <= to && NoneWithin(BoundsOf(brackets), from, to)
    ensures Find(brackets, from) == Find(brackets, to)
  {
    forall i | 0 <= i < |brackets| ensures NoneWithin(Bounds(brackets[i]), from, to) {
      BoundsAreIn(brackets, i);
    }
    SameBracket(brackets, from, to);
  }

  lemma SameRates(p: GatewayPricing, from: nat, to: nat, round: real -> real)
    requires from <= to && NoneWithin(Starts(p), from, to)
    ensures RatesAt(p, from, round) == RatesAt(p, to, round)
  {
    var f := Fields(p);
    hide BoundsOf, Bounds, Find, Fields, Rate, BoundsOfAll;
    forall i | 0 <= i < 4 ensures Find(f[i], from) == Find(f[i], to) {
      FieldsAreIn(f, i);
      SameField(f[i], from, to);
    }
  }

  /** For every total, the tier selected from a compiled price list has the rates of the direct lookup. */
  lemma CompilationIsExact(p: GatewayPricing, cost: ModelCost, tokens: nat, round: real -> real)
    requires IsCompiled(p, round, cost)
    ensures Selected(cost, tokens) == RatesAt(p, tokens, round)
  {
    hide RatesAt, Starts, Pick;
    var sorted :| Ascending(sorted) && SameElements(sorted, Starts(p)) && cost == CostFrom(p, sorted, round);
    assert forall i | 0 <= i < |sorted| :: sorted[i] in sorted;
    assert forall i | 0 <= i < |sorted| :: cost.tiers[i].inputTokensAbove == sorted[i] - 1 && sorted[i] > 0;
    PickIsBest(cost.tiers, tokens);
    var k := Pick(cost.tiers, tokens);
    var from := if k.Some? then sorted[k.value] else 0;
    forall x | x in Starts(p) ensures x <= from || tokens < x {
      assert x in sorted;
      var i :| 0 <= i < |sorted| && sorted[i] == x;
    }
    SameRates(p, from, tokens, round);
  }

  // ------------------------------------------------------------------ charging a request

  datatype Usage = Usage(input: nat, output: nat, cacheRead: nat, cacheWrite: nat, cacheWrite1h: Option<nat>)

  datatype Cost = Cost(input: real, output: real, cacheRead: real, cacheWrite: real, total: real)

  /** The loop over the tiers. */
  method SelectRates(cost: ModelCost, tokens: nat) returns (rates: Rates)
    ensures rates == Selected(cost, tokens)
  {
    var matchedThreshold := -1;
    rates := cost.base;
    assert cost.tiers[..0] == [];
    for i := 0 to |cost.tiers|
      invariant var k := Pick(cost.tiers[..i], tokens);
        && rates == (if k.Some? then cost.tiers[k.value].rates else cost.base)
        && matchedThreshold == (if k.Some? then cost.tiers[k.value].inputTokensAbove else -1)
    {
      assert cost.tiers[..i + 1][..i] == cost.tiers[..i];
      if tokens > cost.tiers[i].inputTokensAbove && cost.tiers[i].inputTokensAbove > matchedThreshold {
        rates, matchedThreshold := cost.tiers[i].rates, cost.tiers[i].inputTokensAbove;
      }
    }
    assert cost.tiers[..|cost.tiers|] == cost.tiers;
  }

  function LongWrites(usage: Usage): nat {
    if usage.cacheWrite1h.Some? then usage.cacheWrite1h.value else 0
  }

  method CalculateCost(cost: ModelCost, usage: Usage) returns (charged: Cost)
    ensures var rates := Selected(cost, usage.input + usage.cacheRead + usage.cacheWrite);
      && charged.input * 1000000.0 == rates.input * usage.input as real
      && charged.output * 1000000.0 == rates.output * usage.output as real
      && charged.cacheRead * 1000000.0 == rates.cacheRead * usage.cacheRead as real
      && charged.cacheWrite * 1000000.0 ==
           rates.cacheWrite * (usage.cacheWrite - LongWrites(usage)) as real +
               rates.input * 2.0 * LongWrites(usage) as real
      && charged.total == charged.input + charged.output + charged.cacheRead + charged.cacheWrite
  {
    var rates := SelectRates(cost, usage.input + usage.cacheRead + usage.cacheWrite);
    hide Selected, Pick, LongWrites;
    var longWrite: int := LongWrites(usage);
    var shortWrite := usage.cacheWrite - longWrite;
    var input := PerMillion(rates.input, usage.input as real);
    var output := PerMillion(rates.output, usage.output as real);
    var cacheRead := PerMillion(rates.cacheRead, usage.cacheRead as real);
    var cacheWrite := (rates.cacheWrite * shortWrite as real + rates.input * 2.0 * longWrite as real) / 1000000.0;
    charged := Cost(input, output, cacheRead, cacheWrite, input + output + cacheRead + cacheWrite);
  }

  method PerMillion(price: real, amount: real) returns (cost: real)
    ensures cost * 1000000.0 == price * amount
  {
    var perToken := price / 1000000.0;
    assert perToken * amount * 1000000.0 == perToken * 1000000.0 * amount;
    cost := perToken * amount;
  }
}
