/**
  Offsets of a raw text remapped onto the text that is left after characters were removed
  (packages/pi-web-search/src/content-format.ts). Strings are sequences of code points.
 */
module OffsetMaps {

  // ------------------------------------------------------------------ deletion

  /** What is left of a text when the positions not in `mask` are deleted. */
  function Filter(raw: string, mask: seq<bool>): string
    requires |raw| == |mask|
  {
    if raw == "" then "" else
      var n := |raw| - 1;
      Filter(raw[..n], mask[..n]) + if mask[n] then [raw[n]] else ""
  }

  /** How many of the first positions a mask keeps. */
  function Count(mask: seq<bool>, n: nat): (c: nat)
    requires n <= |mask|
    ensures c <= n
  {
    if n == 0 then 0 else Count(mask, n - 1) + if mask[n - 1] then 1 else 0
  }

  ghost predicate Subsequence(cleaned: string, raw: string) {
    exists mask :: |mask| == |raw| && Filter(raw, mask) == cleaned
  }

  lemma {:induction false} CountOfPrefix(mask: seq<bool>, m: nat, n: nat)
    requires n <= m <= |mask|
    ensures Count(mask[..m], n) == Count(mask, n)
  {
    if n > 0 {
      CountOfPrefix(mask, m, n - 1);
    }
  }

  /** A kept character stands where the count of kept characters before it says. */
  lemma {:induction false} FilterAt(raw: string, mask: seq<bool>, i: nat)
    requires |raw| == |mask| && i <= |raw|
    ensures Count(mask, |raw|) == |Filter(raw, mask)| && Count(mask, i) <= |Filter(raw, mask)|
    ensures i < |raw| && mask[i] ==> Count(mask, i) < |Filter(raw, mask)| && Filter(raw, mask)[Count(mask, i)] == raw[i]
  {
    if raw != "" {
      var n := |raw| - 1;
      FilterAt(raw[..n], mask[..n], if i <= n then i else n);
      CountOfPrefix(mask, n, n);
      CountOfPrefix(mask, n, if i <= n then i else n);
    }
  }

  // ------------------------------------------------------------------ the greedy match

  /** How many of the first positions the greedy match keeps. */
  function Kept(raw: string, cleaned: string, n: nat): (k: nat)
    requires n <= |raw|
    ensures k <= n && k <= |cleaned|
  {
    if n == 0 then 0 else
      var k := Kept(raw, cleaned, n - 1);
      if k < |cleaned| && raw[n - 1] == cleaned[k] then k + 1 else k
  }

  predicate Keeps(raw: string, cleaned: string, i: nat)
    requires i < |raw|
  {
    Kept(raw, cleaned, i) < |cleaned| && raw[i] == cleaned[Kept(raw, cleaned, i)]
  }

  /** The greedy match is never behind any other. */
  lemma {:induction false} GreedyIsAhead(raw: string, cleaned: string, mask: seq<bool>, n: nat)
    requires |mask| == |raw| && Filter(raw, mask) == cleaned && n <= |raw|
    ensures Count(mask, n) <= Kept(raw, cleaned, n)
  {
    if n > 0 {
      GreedyIsAhead(raw, cleaned, mask, n - 1);
      FilterAt(raw, mask, n - 1);
    }
  }

  /** The greedy match consumes the whole cleaned text exactly when that is a subsequence of the raw one. */
  lemma GreedyConsumesSubsequences(raw: string, cleaned: string)
    ensures Kept(raw, cleaned, |raw|) == |cleaned| <==> Subsequence(cleaned, raw)
  {
    if Subsequence(cleaned, raw) {
      var mask :| |mask| == |raw| && Filter(raw, mask) == cleaned;
      GreedyIsAhead(raw, cleaned, mask, |raw|);
      FilterAt(raw, mask, |raw|);
    }
    if Kept(raw, cleaned, |raw|) == |cleaned| {
      GreedyFilters(raw, cleaned, |raw|);
      assert raw[..|raw|] == raw && cleaned[..|cleaned|] == cleaned;
    }
  }

  ghost function GreedyMask(raw: string, cleaned: string, n: nat): (mask: seq<bool>)
    requires n <= |raw|
    ensures |mask| == n
  {
    seq(n, i requires 0 <= i < n => Keeps(raw, cleaned, i))
  }

  lemma {:induction false} GreedyFilters(raw: string, cleaned: string, n: nat)
    requires n <= |raw|
    ensures Filter(raw[..n], GreedyMask(raw, cleaned, n)) == cleaned[..Kept(raw, cleaned, n)]
  {
    if n > 0 {
      GreedyFilters(raw, cleaned, n - 1);
      assert raw[..n][..n - 1] == raw[..n - 1];
      assert GreedyMask(raw, cleaned, n)[..n - 1] == GreedyMask(raw, cleaned, n - 1);
    }
  }

  // ------------------------------------------------------------------ removed runs

  datatype Run = Run(at: nat, count: nat)

  /** How much of a run lies before an offset. */
  function Part(run: Run, offset: int): nat {
    if run.at >= offset then 0 else if run.count <= offset - run.at then run.count else offset - run.at
  }

  function Before(runs: seq<Run>, offset: int): nat {
    if runs == [] then 0 else Before(runs[..|runs| - 1], offset) + Part(runs[|runs| - 1], offset)
  }

  /** Runs are in order, apart, not empty, and end before `limit`. */
  ghost predicate Apart(runs: seq<Run>, limit: nat) {
    && (forall i | 0 <= i < |runs| :: runs[i].count > 0 && runs[i].at + runs[i].count <= limit)
    && (forall i, j | 0 <= i < j < |runs| :: runs[i].at + runs[i].count < runs[j].at)
  }

  /** Up to every offset, the runs hold exactly the positions the greedy match has dropped. */
  ghost predicate Describes(runs: seq<Run>, raw: string, cleaned: string, n: nat)
    requires n <= |raw|
  {
    && Apart(runs, n)
    && (forall o | 0 <= o <= n :: Before(runs, o) == o - Kept(raw, cleaned, o))
    && (forall o | n <= o :: Before(runs, o) == Before(runs, n))
  }

  lemma BeforeExtends(runs: seq<Run>, run: Run, offset: int)
    ensures Before(runs + [run], offset) == Before(runs, offset) + Part(run, offset)
  {
    assert (runs + [run])[..|runs|] == runs;
  }

  lemma KeptPosition(runs: seq<Run>, raw: string, cleaned: string, n: nat)
    requires n < |raw| && Describes(runs, raw, cleaned, n) && Keeps(raw, cleaned, n)
    ensures Describes(runs, raw, cleaned, n + 1) && Kept(raw, cleaned, n + 1) == Kept(raw, cleaned, n) + 1
  {
  }

  function Dropping(runs: seq<Run>, n: nat): seq<Run> {
    if runs != [] && runs[|runs| - 1].at + runs[|runs| - 1].count == n
    then runs[..|runs| - 1] + [Run(runs[|runs| - 1].at, runs[|runs| - 1].count + 1)]
    else runs + [Run(n, 1)]
  }

  lemma DroppedPosition(runs: seq<Run>, raw: string, cleaned: string, n: nat)
    requires n < |raw| && Describes(runs, raw, cleaned, n) && !Keeps(raw, cleaned, n)
    ensures Describes(Dropping(runs, n), raw, cleaned, n + 1) && Kept(raw, cleaned, n + 1) == Kept(raw, cleaned, n)
  {
    var after := Dropping(runs, n);
    forall o: int ensures Before(after, o) == Before(runs, o) + if o > n then 1 else 0 {
      if runs != [] && runs[|runs| - 1].at + runs[|runs| - 1].count == n {
        BeforeExtends(runs[..|runs| - 1], after[|after| - 1], o);
      } else {
        BeforeExtends(runs, Run(n, 1), o);
      }
    }
    hide Before, Kept;
    assert Kept(raw, cleaned, n + 1) == Kept(raw, cleaned, n) by {
      DroppedKept(raw, cleaned, n);
    }
  }

  lemma DroppedKept(raw: string, cleaned: string, n: nat)
    requires n < |raw| && !Keeps(raw, cleaned, n)
    ensures Kept(raw, cleaned, n + 1) == Kept(raw, cleaned, n)
  {
  }

  // ------------------------------------------------------------------ the map

  /** Where an offset goes: kept positions before it, and a plain shift outside the text. */
  function Mapped(raw: string, cleaned: string, offset: int): int {
    if offset < 0 then offset
    else if offset <= |raw| then Kept(raw, cleaned, offset)
    else offset - |raw| + Kept(raw, cleaned, |raw|)
  }

  /** The greedy loop. */
  method RemovedRuns(raw: string, cleaned: string) returns (removed: seq<Run>)
    ensures Describes(removed, raw, cleaned, |raw|)
  {
    hide Describes, Kept, Before;
    removed := [];
    var kept := 0;
    NothingYet(raw, cleaned);
    for index := 0 to |raw|
      invariant kept == Kept(raw, cleaned, index) && Describes(removed, raw, cleaned, index)
    {
      if kept < |cleaned| && raw[index] == cleaned[kept] {
        KeptPosition(removed, raw, cleaned, index);
        kept := kept + 1;
      } else {
        DroppedPosition(removed, raw, cleaned, index);
        var last := |removed| - 1;
        if last >= 0 && removed[last].at + removed[last].count == index {
          removed := removed[..last] + [Run(removed[last].at, removed[last].count + 1)];
        } else {
          removed := removed + [Run(index, 1)];
        }
      }
    }
  }

  lemma NothingYet(raw: string, cleaned: string)
    ensures Describes([], raw, cleaned, 0) && Kept(raw, cleaned, 0) == 0
  {
  }

  class CleanOffsetMap {
    var changed: bool
    var removed: seq<Run>
    ghost const raw: string
    ghost const cleaned: string

    ghost predicate Valid()
      reads this
    {
      Describes(removed, raw, cleaned, |raw|) && (changed <==> removed != [])
    }

    constructor (raw: string, cleaned: string)
      ensures Valid() && this.raw == raw && this.cleaned == cleaned
      ensures changed <==> !(raw <= cleaned)
    {
      this.raw, this.cleaned := raw, cleaned;
      var runs: seq<Run> := [];
      if raw != cleaned {
        runs := RemovedRuns(raw, cleaned);
      }
      NothingRemoved(runs, raw, cleaned);
      removed, changed := runs, |runs| > 0;
    }

    method Map(offset: int) returns (mapped: int)
      requires Valid()
      ensures mapped == Mapped(raw, cleaned, offset)
    {
      var dropped := 0;
      var k := 0;
      assert removed[..0] == [];
      while k < |removed| && removed[k].at < offset
        invariant k <= |removed| && dropped == Before(removed[..k], offset)
      {
        assert removed[..k + 1][..k] == removed[..k];
        var run := removed[k];
        dropped := dropped + if run.count <= offset - run.at then run.count else offset - run.at;
        k := k + 1;
      }
      RestIsBehind(removed, |raw|, k, offset);
      AllBefore(removed, offset);
      mapped := offset - dropped;
    }
  }

  lemma {:induction false} RestIsBehind(runs: seq<Run>, limit: nat, k: nat, offset: int)
    requires Apart(runs, limit) && k <= |runs| && (k < |runs| ==> runs[k].at >= offset)
    ensures Before(runs, offset) == Before(runs[..k], offset)
    decreases |runs| - k
  {
    if k < |runs| {
      RestIsBehind(runs, limit, k + 1, offset);
      assert runs[..k + 1][..k] == runs[..k];
    } else {
      assert runs[..k] == runs;
    }
  }

  lemma {:induction false} AllBefore(runs: seq<Run>, offset: int)
    ensures offset <= 0 ==> Before(runs, offset) == 0
  {
    if runs != [] {
      AllBefore(runs[..|runs| - 1], offset);
    }
  }

  lemma {:induction false} PrefixIsKept(raw: string, cleaned: string, n: nat)
    requires n <= |raw| && raw <= cleaned
    ensures Kept(raw, cleaned, n) == n
  {
    if n > 0 {
      PrefixIsKept(raw, cleaned, n - 1);
    }
  }

  lemma {:induction false} AllKeptIsPrefix(raw: string, cleaned: string, n: nat)
    requires n <= |raw| && Kept(raw, cleaned, n) == n
    ensures n <= |cleaned| && raw[..n] == cleaned[..n] && (n == |raw| ==> raw <= cleaned)
  {
    if n > 0 {
      AllKeptIsPrefix(raw, cleaned, n - 1);
    }
  }

  /** Nothing is removed exactly when the raw text is the cleaned one, or its beginning. */
  lemma NothingRemoved(runs: seq<Run>, raw: string, cleaned: string)
    requires if raw == cleaned then runs == [] else Describes(runs, raw, cleaned, |raw|)
    ensures Describes(runs, raw, cleaned, |raw|) && (runs != [] <==> !(raw <= cleaned))
  {
    if raw <= cleaned {
      PrefixIsKept(raw, cleaned, |raw|);
      forall o | 0 <= o <= |raw| ensures Kept(raw, cleaned, o) == o {
        PrefixIsKept(raw, cleaned, o);
      }
      if runs != [] {
        AtLeast(runs, |raw|, |raw|);
      }
    } else if runs == [] {
      AllKeptIsPrefix(raw, cleaned, |raw|);
    }
  }

  lemma AtLeast(runs: seq<Run>, limit: nat, offset: nat)
    requires Apart(runs, limit) && runs != [] && offset == limit
    ensures Before(runs, offset) > 0
  {
  }

  // ------------------------------------------------------------------ what the map promises

  lemma {:induction false} MapIsMonotone(raw: string, cleaned: string, a: int, b: int)
    requires a <= b
    ensures Mapped(raw, cleaned, a) <= Mapped(raw, cleaned, b) <= Mapped(raw, cleaned, a) + (b - a)
    decreases b - a
  {
    if a < b {
      MapIsMonotone(raw, cleaned, a, b - 1);
    }
  }

  /**
    When the cleaned text is a subsequence of the raw one, the end goes to the end, and every
    character the match keeps is found where the map says.
   */
  lemma MapIsExact(raw: string, cleaned: string, i: nat)
    requires Subsequence(cleaned, raw)
    ensures Mapped(raw, cleaned, |raw|) == |cleaned|
    ensures i < |raw| && Keeps(raw, cleaned, i) ==>
      Mapped(raw, cleaned, i) < |cleaned| && cleaned[Mapped(raw, cleaned, i)] == raw[i]
    ensures i < |raw| ==> Mapped(raw, cleaned, i + 1) == Mapped(raw, cleaned, i) + if Keeps(raw, cleaned, i) then 1
        else 0
  {
    GreedyConsumesSubsequences(raw, cleaned);
  }

  /** A deleted character is not the one that was kept next. */
  predicate Distinguishable(raw: string, mask: seq<bool>, cleaned: string)
    requires |mask| == |raw|
  {
    forall i | 0 <= i < |raw| && !mask[i] :: Count(mask, i) >= |cleaned| || raw[i] != cleaned[Count(mask, i)]
  }

  /**
    The map follows an actual deletion exactly when every deleted character differs from the next
    kept one; otherwise the greedy match keeps a character that was deleted.
   */
  lemma ExactlyWhenDistinguishable(raw: string, mask: seq<bool>, cleaned: string)
    requires |mask| == |raw| && Filter(raw, mask) == cleaned
    ensures (forall i | 0 <= i <= |raw| ::
        Mapped(raw, cleaned, i) == Count(mask, i)) <==> Distinguishable(raw, mask, cleaned)
  {
    if Distinguishable(raw, mask, cleaned) {
      forall i | 0 <= i <= |raw| ensures Mapped(raw, cleaned, i) == Count(mask, i) {
        FollowsDeletion(raw, mask, cleaned, i);
      }
    }
    if forall i | 0 <= i <= |raw| :: Mapped(raw, cleaned, i) == Count(mask, i) {
      forall i | 0 <= i < |raw| && !mask[i] ensures Count(mask, i) >= |cleaned| || raw[i] != cleaned[Count(mask, i)] {
        assert Mapped(raw, cleaned, i) == Count(mask, i) && Mapped(raw, cleaned, i + 1) == Count(mask, i + 1);
      }
    }
  }

  lemma {:induction false} FollowsDeletion(raw: string, mask: seq<bool>, cleaned: string, i: nat)
    requires |mask| == |raw| && Filter(raw, mask) == cleaned && Distinguishable(raw, mask, cleaned) && i <= |raw|
    ensures Kept(raw, cleaned, i) == Count(mask, i)
  {
    hide Filter, Distinguishable;
    if i > 0 {
      FollowsDeletion(raw, mask, cleaned, i - 1);
      FilterAt(raw, mask, i - 1);
      if !mask[i - 1] {
        DistinguishableAt(raw, mask, cleaned, i - 1);
      }
    }
  }

  lemma DistinguishableAt(raw: string, mask: seq<bool>, cleaned: string, i: nat)
    requires |mask| == |raw| && Distinguishable(raw, mask, cleaned) && i < |raw| && !mask[i]
    ensures Count(mask, i) >= |cleaned| || raw[i] != cleaned[Count(mask, i)]
  {
  }

  /** Stripping an escape sequence that ends in the digit it is followed by: offsets behind it are wrong by one. */
  lemma EscapeBeforeItsOwnDigit()
    ensures var raw, mask := [27 as char, '[', '1', 'm', '1'], [false, false, false, false, true];
      && Filter(raw, mask) == "1" && Count(mask, 4) == 0 && Mapped(raw, "1", 4) == 1
      && !Distinguishable(raw, mask, "1")
  {
    var raw, mask := [27 as char, '[', '1', 'm', '1'], [false, false, false, false, true];
    assert Filter(raw[..4], mask[..4]) == "" by {
      assert raw[..4][..3] == raw[..3] && mask[..4][..3] == mask[..3];
      assert raw[..3][..2] == raw[..2] && mask[..3][..2] == mask[..2];
      assert raw[..2][..1] == raw[..1] && mask[..2][..1] == mask[..1];
      assert Filter(raw[..1], mask[..1]) == "" && Filter(raw[..2], mask[..2]) == "" &&
          Filter(raw[..3], mask[..3]) == "";
    }
    assert Filter(raw, mask) == "1";
    assert Kept(raw, "1", 1) == 0 && Kept(raw, "1", 2) == 0 && Kept(raw, "1", 3) == 1 && Kept(raw, "1", 4) == 1;
    assert Count(mask, 1) == 0 && Count(mask, 2) == 0 && Count(mask, 3) == 0 && Count(mask, 4) == 0;
  }
}
