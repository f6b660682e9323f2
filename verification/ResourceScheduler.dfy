/**
  The bounded scheduler that hands out tool execution slots and keyed resources
  (packages/agent/src/resource-scheduler.ts).

  The scheduler keeps, per key, only a list of modes, and `release` pops whichever mode is last.
  It wakes waiters in a single left-to-right pass. The module proves why both are enough.
 */
module ResourceScheduling {
  import opened Wrappers

  datatype Mode = Shared | Exclusive

  datatype Request = Request(key: Option<string>, mode: Option<Mode>)

  /** A missing key and the empty key both name no resource. */
  predicate Keyed(r: Request) {
    r.key.Some? && r.key.value != ""
  }

  function EffectiveMode(r: Request): Mode {
    if r.mode.Some? then r.mode.value else Exclusive
  }

  /** Requests the scheduler cannot tell apart. */
  predicate SameClass(a: Request, b: Request) {
    if Keyed(a) then Keyed(b) && a.key == b.key && EffectiveMode(a) == EffectiveMode(b)
    else !Keyed(b)
  }

  type ActiveKeys = map<string, seq<Mode>>

  function ModesAt(keys: ActiveKeys, k: string): seq<Mode> {
    if k in keys then keys[k] else []
  }

  predicate Admissible(active: int, max: int, keys: ActiveKeys, r: Request) {
    && active < max
    && (!Keyed(r) ||
        var modes := ModesAt(keys, r.key.value);
        modes == [] || (EffectiveMode(r) == Shared && forall m | m in modes :: m == Shared))
  }

  function KeysAfterStart(keys: ActiveKeys, r: Request): ActiveKeys {
    if Keyed(r) then keys[r.key.value := ModesAt(keys, r.key.value) + [EffectiveMode(r)]] else keys
  }

  /** `pop` drops the last mode, whoever pushed it; an emptied key is deleted. */
  function KeysAfterRelease(keys: ActiveKeys, r: Request): ActiveKeys {
    if !Keyed(r) then keys else
      var modes := ModesAt(keys, r.key.value);
      var rest := if modes == [] then [] else modes[..|modes| - 1];
      if rest == [] then keys - {r.key.value} else keys[r.key.value := rest]
  }

  // ------------------------------------------------------------------ what the mode lists mean

  /** A lease that has been granted and not yet released. */
  datatype Held = Held(ticket: nat, request: Request)

  ghost predicate Holds(r: Request, k: string, m: Mode) {
    Keyed(r) && r.key.value == k && EffectiveMode(r) == m
  }

  /** How many outstanding leases really hold `k` in mode `m`. */
  ghost function Holders(held: seq<Held>, k: string, m: Mode): nat {
    if held == [] then 0 else
      Holders(held[..|held| - 1], k, m) + (if Holds(held[|held| - 1].request, k, m) then 1 else 0)
  }

  ghost function Count(modes: seq<Mode>, m: Mode): nat {
    if modes == [] then 0 else
      Count(modes[..|modes| - 1], m) + (if modes[|modes| - 1] == m then 1 else 0)
  }

  /** All readers, or one writer alone. */
  ghost predicate Homogeneous(modes: seq<Mode>) {
    |modes| == 1 || forall i | 0 <= i < |modes| :: modes[i] == Shared
  }

  /** The list kept for `k` is the multiset of the modes under which `k` is really held. */
  ghost predicate KeyMatches(keys: ActiveKeys, held: seq<Held>, k: string) {
    && (k in keys ==> keys[k] != [])
    && Homogeneous(ModesAt(keys, k))
    && Count(ModesAt(keys, k), Shared) == Holders(held, k, Shared)
    && Count(ModesAt(keys, k), Exclusive) == Holders(held, k, Exclusive)
  }

  ghost predicate KeysMatch(keys: ActiveKeys, held: seq<Held>) {
    forall k: string :: KeyMatches(keys, held, k)
  }

  lemma {:induction false} CountIsMultiplicity(modes: seq<Mode>, m: Mode)
    ensures Count(modes, m) == multiset(modes)[m]
  {
    if modes != [] {
      var rest := modes[..|modes| - 1];
      CountIsMultiplicity(rest, m);
      assert modes == rest + [modes[|modes| - 1]];
    }
  }

  ghost function Without<T>(s: seq<T>, i: nat): seq<T>
    requires i < |s|
  {
    s[..i] + s[i + 1..]
  }

  lemma {:induction false} HoldersWithout(held: seq<Held>, i: nat, k: string, m: Mode)
    requires i < |held|
    ensures Holders(held, k, m) ==
            Holders(Without(held, i), k, m) + (if Holds(held[i].request, k, m) then 1 else 0)
  {
    var n := |held| - 1;
    if i == n {
      assert Without(held, i) == held[..n];
    } else {
      HoldersWithout(held[..n], i, k, m);
      assert Without(held, i)[..n - 1] == Without(held[..n], i);
    }
  }

  /** Starting an admissible request keeps every mode list equal to the modes really held. */
  lemma StartKeepsModes(active: int, max: int, keys: ActiveKeys, held: seq<Held>, h: Held)
    requires KeysMatch(keys, held) && Admissible(active, max, keys, h.request)
    ensures KeysMatch(KeysAfterStart(keys, h.request), held + [h])
  {
    assert (held + [h])[..|held|] == held;
    forall k: string ensures KeyMatches(KeysAfterStart(keys, h.request), held + [h], k) {
      assert KeyMatches(keys, held, k);
      var modes := ModesAt(keys, k);
      assert (modes + [EffectiveMode(h.request)])[..|modes|] == modes;
      if Keyed(h.request) && h.request.key.value == k && modes != [] {
        assert forall i | 0 <= i < |modes| :: modes[i] in modes;
      }
    }
  }

  /** A homogeneous list holds only the mode of any one of its entries. */
  lemma {:induction false} AllOneMode(modes: seq<Mode>, own: Mode)
    requires Homogeneous(modes) && Count(modes, own) > 0
    ensures modes != [] && modes[|modes| - 1] == own
  {
    if |modes| > 1 && modes[|modes| - 1] != own {
      AllOneMode(modes[..|modes| - 1], own);
    }
  }

  lemma ReleaseKeepsModesAt(keys: ActiveKeys, held: seq<Held>, i: nat, k: string)
    requires KeyMatches(keys, held, k) && i < |held|
    ensures KeyMatches(KeysAfterRelease(keys, held[i].request), Without(held, i), k)
    ensures var r := held[i].request; Keyed(r) && r.key.value == k ==>
      var modes := ModesAt(keys, k);
      modes != [] && modes[|modes| - 1] == EffectiveMode(r)
  {
    var r := held[i].request;
    HoldersWithout(held, i, k, Shared);
    HoldersWithout(held, i, k, Exclusive);
    if Keyed(r) && r.key.value == k {
      AllOneMode(ModesAt(keys, k), EffectiveMode(r));
    }
  }

  /**
    `pop` always removes the releasing lease's own mode: the lists stay exact although the
    popped entry was pushed by another lease whenever leases end out of order.
   */
  lemma ReleaseKeepsModes(keys: ActiveKeys, held: seq<Held>, i: nat)
    requires KeysMatch(keys, held) && i < |held|
    ensures KeysMatch(KeysAfterRelease(keys, held[i].request), Without(held, i))
    ensures var r := held[i].request; Keyed(r) ==>
      var modes := ModesAt(keys, r.key.value);
      modes != [] && modes[|modes| - 1] == EffectiveMode(r)
  {
    forall k: string
      ensures KeyMatches(KeysAfterRelease(keys, held[i].request), Without(held, i), k)
      ensures var r := held[i].request; Keyed(r) && r.key.value == k ==>
        var modes := ModesAt(keys, k);
        modes != [] && modes[|modes| - 1] == EffectiveMode(r)
    {
      assert KeyMatches(keys, held, k);
      ReleaseKeepsModesAt(keys, held, i, k);
    }
  }

  /** Starting one request never lets another one start: this is why one wakeup pass is enough. */
  lemma StartOnlyShrinks(active: int, max: int, keys: ActiveKeys, started: Request, other: Request)
    requires Admissible(active, max, keys, started)
    requires Admissible(active + 1, max, KeysAfterStart(keys, started), other)
    ensures Admissible(active, max, keys, other)
  {
    if Keyed(other) {
      var k := other.key.value;
      forall m | m in ModesAt(keys, k) ensures m in ModesAt(KeysAfterStart(keys, started), k) {}
    }
  }

  lemma NothingHeldAdmitsAll(max: int, keys: ActiveKeys, r: Request)
    requires 1 <= max && KeysMatch(keys, [])
    ensures Admissible(0, max, keys, r)
  {
    if Keyed(r) {
      assert KeyMatches(keys, [], r.key.value);
    }
  }

  // ------------------------------------------------------------------ the scheduler object

  class AbortSignal {
    var aborted: bool

    constructor ()
      ensures !aborted
    {
      aborted := false;
    }
  }

  /** The closure a caller releases; its `released` flag lives in `ResourceScheduler.released`. */
  datatype ResourceLease = ResourceLease(ticket: nat, request: Request)

  type Promises = map<nat, Option<ResourceLease>>

  datatype Waiter = Waiter(ticket: nat, request: Request, signal: AbortSignal?)

  /** A caller that queued before another with an equal request is also granted before it. */
  ghost predicate Fair(ws: seq<Waiter>, grants: seq<Held>) {
    && (forall i, j | 0 <= i < j < |ws| :: ws[i].ticket < ws[j].ticket)
    && (forall g, w | g in grants && w in ws && SameClass(g.request, w.request) :: g.ticket < w.ticket)
    && (forall i, j | 0 <= i < j < |grants| && SameClass(grants[i].request, grants[j].request) ::
          grants[i].ticket < grants[j].ticket)
  }

  ghost predicate Waiting(ws: seq<Waiter>, t: nat) {
    exists i :: 0 <= i < |ws| && ws[i].ticket == t
  }

  /** Each ticket is either waiting or resolved, and equals are granted in arrival order. */
  ghost predicate QueueOrdered(ws: seq<Waiter>, resolved: set<nat>, grants: seq<Held>, next: nat) {
    && Fair(ws, grants)
    && (forall i | 0 <= i < |ws| :: ws[i].ticket < next && ws[i].ticket !in resolved)
    && (forall t | t in resolved :: t < next)
    && (forall t: nat | t < next && t !in resolved :: Waiting(ws, t))
    && (forall g | g in grants :: g.ticket < next)
  }

  lemma WithoutElements<T>(s: seq<T>, i: nat)
    requires i < |s|
    ensures forall j | 0 <= j < |s| - 1 :: Without(s, i)[j] == if j < i then s[j] else s[j + 1]
    ensures forall x | x in Without(s, i) :: exists j :: 0 <= j < |s| && j != i && s[j] == x
  {
    forall x | x in Without(s, i) ensures exists j :: 0 <= j < |s| && j != i && s[j] == x {
      var j :| 0 <= j < |s| - 1 && Without(s, i)[j] == x;
      assert s[if j < i then j else j + 1] == x;
    }
  }

  lemma DropKeepsFair(ws: seq<Waiter>, grants: seq<Held>, i: nat)
    requires Fair(ws, grants) && i < |ws|
    ensures Fair(Without(ws, i), grants)
  {
    WithoutElements(ws, i);
  }

  lemma DropKeepsOrder(ws: seq<Waiter>, resolved: set<nat>, grants: seq<Held>, next: nat, i: nat)
    requires QueueOrdered(ws, resolved, grants, next) && i < |ws|
    ensures QueueOrdered(Without(ws, i), resolved + {ws[i].ticket}, grants, next)
  {
    DropKeepsFair(ws, grants, i);
    var rest := Without(ws, i);
    assert ws[i] in ws;
    WithoutElements(ws, i);
    forall j | 0 <= j < |rest| ensures rest[j].ticket < next && rest[j].ticket !in resolved + {ws[i].ticket} {
      assert rest[j] == if j < i then ws[j] else ws[j + 1];
    }
    forall t: nat | t < next && t !in resolved + {ws[i].ticket} ensures Waiting(rest, t) {
      assert Waiting(ws, t);
      var j :| 0 <= j < |ws| && ws[j].ticket == t;
      assert rest[if j < i then j else j - 1] == ws[j];
    }
  }

  /** A waiter with no equal before it may be granted without overtaking anyone. */
  lemma GrantKeepsOrder(ws: seq<Waiter>, resolved: set<nat>, grants: seq<Held>, next: nat, i: nat)
    requires QueueOrdered(ws, resolved, grants, next) && i < |ws|
    requires forall j | 0 <= j < i :: !SameClass(ws[j].request, ws[i].request)
    ensures QueueOrdered(Without(ws, i), resolved + {ws[i].ticket},
                         grants + [Held(ws[i].ticket, ws[i].request)], next)
  {
    DropKeepsOrder(ws, resolved, grants, next, i);
    assert ws[i] in ws;
    var rest := Without(ws, i);
    forall w | w in rest && SameClass(ws[i].request, w.request) ensures ws[i].ticket < w.ticket {
      WithoutElements(ws, i);
    }
  }

  lemma RefusedKeepsOrder(ws: seq<Waiter>, resolved: set<nat>, grants: seq<Held>, next: nat)
    requires QueueOrdered(ws, resolved, grants, next)
    ensures QueueOrdered(ws, resolved + {next}, grants, next + 1)
  {
  }

  /** A newcomer may be granted past the queue when no equal of it is waiting. */
  lemma NewcomerKeepsOrder(ws: seq<Waiter>, resolved: set<nat>, grants: seq<Held>, next: nat, r: Request)
    requires QueueOrdered(ws, resolved, grants, next)
    requires forall i | 0 <= i < |ws| :: !SameClass(ws[i].request, r)
    ensures QueueOrdered(ws, resolved + {next}, grants + [Held(next, r)], next + 1)
  {
    forall g, w | g in grants + [Held(next, r)] && w in ws && SameClass(g.request, w.request)
      ensures g.ticket < w.ticket
    {
      assert g in grants || SameClass(w.request, r);
    }
  }

  lemma QueuedKeepsOrder(ws: seq<Waiter>, resolved: set<nat>, grants: seq<Held>, next: nat, w: Waiter)
    requires QueueOrdered(ws, resolved, grants, next) && w.ticket == next
    ensures QueueOrdered(ws + [w], resolved, grants, next + 1)
  {
    forall t: nat | t < next + 1 && t !in resolved ensures Waiting(ws + [w], t) {
      if t == next {
        assert (ws + [w])[|ws|].ticket == t;
      } else {
        assert Waiting(ws, t);
        var j :| 0 <= j < |ws| && ws[j].ticket == t;
        assert (ws + [w])[j].ticket == t;
      }
    }
  }

  lemma EqualsStartTogether(active: int, max: int, keys: ActiveKeys, a: Request, b: Request)
    requires SameClass(a, b)
    ensures Admissible(active, max, keys, a) == Admissible(active, max, keys, b)
  {
  }

  /** The waiters a pass has skipped differ from the one it starts, and starting it frees none of them. */
  lemma BlockedStayBlocked(active: int, max: int, keys: ActiveKeys, ws: seq<Waiter>, i: nat)
    requires i < |ws| && Admissible(active, max, keys, ws[i].request)
    requires forall j | 0 <= j < i :: !Admissible(active, max, keys, ws[j].request)
    ensures forall j | 0 <= j < i :: !SameClass(ws[j].request, ws[i].request)
    ensures forall j | 0 <= j < i ::
      !Admissible(active + 1, max, KeysAfterStart(keys, ws[i].request), ws[j].request)
  {
    forall j | 0 <= j < i
      ensures !SameClass(ws[j].request, ws[i].request)
      ensures !Admissible(active + 1, max, KeysAfterStart(keys, ws[i].request), ws[j].request)
    {
      if SameClass(ws[j].request, ws[i].request) {
        EqualsStartTogether(active, max, keys, ws[j].request, ws[i].request);
      }
      if Admissible(active + 1, max, KeysAfterStart(keys, ws[i].request), ws[j].request) {
        StartOnlyShrinks(active, max, keys, ws[i].request, ws[j].request);
      }
    }
  }

  /** The waiters whose signal has fired. */
  ghost function Gone(ws: seq<Waiter>): set<nat>
    reads set w | w in ws :: w.signal
  {
    set w | w in ws && w.signal != null && w.signal.aborted :: w.ticket
  }

  /** Outstanding leases are exactly the promised leases that nobody has released yet. */
  ghost predicate LeasesMatch(held: seq<Held>, promises: Promises, released: set<nat>) {
    && (forall i, j | 0 <= i < j < |held| :: held[i].ticket != held[j].ticket)
    && (forall h | h in held :: h.ticket !in released && h.ticket in promises &&
                                promises[h.ticket] == Some(ResourceLease(h.ticket, h.request)))
    && (forall t | t in promises && promises[t].Some? ::
          promises[t].value.ticket == t &&
          (t !in released ==> Held(t, promises[t].value.request) in held))
  }

  lemma GrantKeepsLeases(held: seq<Held>, promises: Promises, released: set<nat>, h: Held)
    requires LeasesMatch(held, promises, released)
    requires h.ticket !in promises && h.ticket !in released
    ensures LeasesMatch(held + [h], promises[h.ticket := Some(ResourceLease(h.ticket, h.request))], released)
  {
  }

  lemma ReleaseKeepsLeases(held: seq<Held>, promises: Promises, released: set<nat>, i: nat)
    requires LeasesMatch(held, promises, released) && i < |held|
    ensures LeasesMatch(Without(held, i), promises, released + {held[i].ticket})
  {
    WithoutElements(held, i);
    var rest := Without(held, i);
    forall t | t in promises && promises[t].Some? && t !in released + {held[i].ticket}
      ensures Held(t, promises[t].value.request) in rest
    {
      var j :| 0 <= j < |held| && held[j] == Held(t, promises[t].value.request);
      assert rest[if j < i then j else j - 1] == held[j];
    }
  }

  /** Everything the scheduler knows, with the leases really outstanding and every grant ever made. */
  datatype State = State(
    max: int, active: int, keys: ActiveKeys, waiters: seq<Waiter>, promises: Promises, released: set<nat>,
    next: nat, held: seq<Held>, grants: seq<Held>)
  {
    predicate CanStart(r: Request) {
      Admissible(active, max, keys, r)
    }

    /** Running count, mode lists, promises and flags all describe the same outstanding leases. */
    ghost predicate Consistent() {
      && 1 <= max
      && active == |held| <= max
      && KeysMatch(keys, held)
      && LeasesMatch(held, promises, released)
      && released <= promises.Keys
      && QueueOrdered(waiters, promises.Keys, grants, next)
    }

    /** No queued waiter could start: there is no lost wakeup. */
    ghost predicate Settled() {
      forall i | 0 <= i < |waiters| :: !CanStart(waiters[i].request)
    }

    ghost function Started(ticket: nat, r: Request): State {
      this.(active := active + 1, keys := KeysAfterStart(keys, r),
            promises := promises[ticket := Some(ResourceLease(ticket, r))],
            held := held + [Held(ticket, r)], grants := grants + [Held(ticket, r)])
    }

    ghost function Granted(i: nat): State
      requires i < |waiters|
    {
      Started(waiters[i].ticket, waiters[i].request).(waiters := Without(waiters, i))
    }

    ghost function Dropped(i: nat): State
      requires i < |waiters|
    {
      this.(waiters := Without(waiters, i), promises := promises[waiters[i].ticket := None])
    }

    lemma GrantedConsistent(i: nat)
      requires Consistent() && i < |waiters| && CanStart(waiters[i].request)
      requires forall j | 0 <= j < i :: !CanStart(waiters[j].request)
      ensures Granted(i).Consistent()
      ensures forall j | 0 <= j < i :: !Granted(i).CanStart(waiters[j].request)
    {
      var w := waiters[i];
      assert w in waiters;
      BlockedStayBlocked(active, max, keys, waiters, i);
      StartKeepsModes(active, max, keys, held, Held(w.ticket, w.request));
      GrantKeepsOrder(waiters, promises.Keys, grants, next, i);
      GrantKeepsLeases(held, promises, released, Held(w.ticket, w.request));
      assert Granted(i).promises.Keys == promises.Keys + {w.ticket};
    }

    lemma DroppedConsistent(i: nat)
      requires Consistent() && i < |waiters|
      ensures Dropped(i).Consistent()
    {
      assert waiters[i] in waiters;
      DropKeepsOrder(waiters, promises.Keys, grants, next, i);
      assert Dropped(i).promises.Keys == promises.Keys + {waiters[i].ticket};
    }

    /** One pass over the queue from position `i`: drop the gone, skip the blocked, start the rest. */
    ghost function Scheduled(gone: set<nat>, i: nat): State
      requires i <= |waiters|
      decreases |waiters| - i
    {
      if i == |waiters| then this
      else if waiters[i].ticket in gone then Dropped(i).Scheduled(gone, i)
      else if !CanStart(waiters[i].request) then Scheduled(gone, i + 1)
      else Granted(i).Scheduled(gone, i)
    }

    /** A single pass leaves nobody behind who could start, however many slots were freed. */
    lemma {:induction false} OnePassSettles(gone: set<nat>, i: nat)
      requires Consistent() && i <= |waiters|
      requires forall j | 0 <= j < i :: !CanStart(waiters[j].request)
      ensures Scheduled(gone, i).Consistent() && Scheduled(gone, i).Settled()
      decreases |waiters| - i
    {
      hide Consistent;
      if i < |waiters| {
        if waiters[i].ticket in gone {
          DroppedConsistent(i);
          Dropped(i).OnePassSettles(gone, i);
        } else if !CanStart(waiters[i].request) {
          OnePassSettles(gone, i + 1);
        } else {
          GrantedConsistent(i);
          Granted(i).OnePassSettles(gone, i);
        }
      }
    }

    lemma {:induction false} ScheduleFrames(gone: set<nat>, i: nat)
      requires i <= |waiters|
      ensures Scheduled(gone, i).released == released && Scheduled(gone, i).next == next
      decreases |waiters| - i
    {
      if i < |waiters| {
        if waiters[i].ticket in gone {
          Dropped(i).ScheduleFrames(gone, i);
        } else if !CanStart(waiters[i].request) {
          ScheduleFrames(gone, i + 1);
        } else {
          Granted(i).ScheduleFrames(gone, i);
        }
      }
    }

    /** A pass resolves no promise twice, refuses only the gone, and forgets nobody. */
    lemma {:induction false} OnePassLosesNobody(gone: set<nat>, i: nat, t: nat)
      requires Consistent() && i <= |waiters|
      requires forall j | 0 <= j < i :: !CanStart(waiters[j].request)
      ensures var s := Scheduled(gone, i);
        && s.next == next
        && (t in promises ==> t in s.promises && s.promises[t] == promises[t])
        && (t !in promises && t in s.promises ==> (s.promises[t].None? ==> t in gone))
        && |s.waiters| <= |waiters|
      decreases |waiters| - i
    {
      if i < |waiters| {
        assert waiters[i] in waiters;
        assert waiters[i].ticket !in promises;
        hide Consistent;
        if waiters[i].ticket in gone {
          DroppedConsistent(i);
          Dropped(i).OnePassLosesNobody(gone, i, t);
        } else if !CanStart(waiters[i].request) {
          OnePassLosesNobody(gone, i + 1, t);
        } else {
          GrantedConsistent(i);
          Granted(i).OnePassLosesNobody(gone, i, t);
        }
      }
    }

    lemma RefusedValid()
      requires Consistent() && Settled()
      ensures var s := this.(promises := promises[next := None], next := next + 1);
        s.Consistent() && s.Settled()
    {
      RefusedKeepsOrder(waiters, promises.Keys, grants, next);
      assert promises[next := None].Keys == promises.Keys + {next};
    }

    /** A newcomer that starts at once overtakes no equal waiter and frees nobody. */
    lemma NewcomerValid(r: Request)
      requires Consistent() && Settled() && CanStart(r)
      ensures this.(next := next + 1).Started(next, r).Consistent()
      ensures this.(next := next + 1).Started(next, r).Settled()
    {
      var s := this.(next := next + 1).Started(next, r);
      forall i | 0 <= i < |waiters|
        ensures !SameClass(waiters[i].request, r) && !s.CanStart(waiters[i].request)
      {
        assert !CanStart(waiters[i].request);
        if SameClass(waiters[i].request, r) {
          EqualsStartTogether(active, max, keys, waiters[i].request, r);
        }
        if s.CanStart(waiters[i].request) {
          StartOnlyShrinks(active, max, keys, r, waiters[i].request);
        }
      }
      StartKeepsModes(active, max, keys, held, Held(next, r));
      NewcomerKeepsOrder(waiters, promises.Keys, grants, next, r);
      GrantKeepsLeases(held, promises, released, Held(next, r));
      assert s.promises.Keys == promises.Keys + {next};
    }

    lemma QueuedValid(w: Waiter)
      requires Consistent() && Settled() && !CanStart(w.request) && w.ticket == next
      ensures var s := this.(next := next + 1, waiters := waiters + [w]);
        s.Consistent() && s.Settled()
    {
      QueuedKeepsOrder(waiters, promises.Keys, grants, next, w);
    }

    ghost function ReleasedAt(i: nat): State
      requires i < |held|
    {
      this.(active := active - 1, keys := KeysAfterRelease(keys, held[i].request),
            released := released + {held[i].ticket}, held := Without(held, i))
    }

    lemma ReleasedConsistent(i: nat)
      requires Consistent() && i < |held|
      ensures ReleasedAt(i).Consistent()
    {
      assert held[i] in held;
      ReleaseKeepsModes(keys, held, i);
      ReleaseKeepsLeases(held, promises, released, i);
    }

    /** Where the outstanding lease with ticket `t` stands. */
    ghost function HeldIndex(t: nat): (i: nat)
      requires Consistent() && t in promises && promises[t].Some? && t !in released
      ensures i < |held| && held[i] == Held(t, promises[t].value.request)
    {
      var i :| 0 <= i < |held| && held[i] == Held(t, promises[t].value.request);
      i
    }

    /** Requests equal in key and effective mode are granted in arrival order. */
    lemma GrantedInArrivalOrder(i: nat, j: nat)
      requires Consistent() && i < j < |grants| && SameClass(grants[i].request, grants[j].request)
      ensures grants[i].ticket < grants[j].ticket
    {
    }

    /** With no lease outstanding nobody waits. */
    lemma IdleMeansEmptyQueue()
      requires Consistent() && Settled() && active == 0
      ensures waiters == []
    {
      if |waiters| > 0 {
        var w := waiters[0];
        assert !CanStart(w.request);
        NothingHeldAdmitsAll(max, keys, w.request);
      }
    }
  }

  class ResourceScheduler {
    const maxConcurrency: int
    var activeCount: int
    var activeKeys: ActiveKeys
    var waiters: seq<Waiter>
    /** The promise handed to each caller of `Acquire`, once it is resolved. */
    var promises: Promises
    /** Tickets of the leases whose `released` flag is set. */
    var released: set<nat>
    var nextTicket: nat

    ghost var held: seq<Held>
    ghost var grants: seq<Held>

    ghost function View(): State
      reads this
    {
      State(maxConcurrency, activeCount, activeKeys, waiters, promises, released, nextTicket, held, grants)
    }

    ghost predicate Valid()
      reads this
    {
      View().Consistent() && View().Settled()
    }

    constructor (maxConcurrency: int)
      requires 1 <= maxConcurrency
      ensures Valid() && View() == State(maxConcurrency, 0, map[], [], map[], {}, 0, [], [])
    {
      this.maxConcurrency := maxConcurrency;
      activeCount := 0;
      activeKeys := map[];
      waiters := [];
      promises := map[];
      released := {};
      nextTicket := 0;
      held, grants := [], [];
    }

    predicate CanStart(r: Request)
      reads this
    {
      Admissible(activeCount, maxConcurrency, activeKeys, r)
    }

    /** Take a slot, record the mode and resolve the caller's promise with the lease. */
    method Start(ticket: nat, request: Request)
      modifies this`activeCount, this`activeKeys, this`promises, this`held, this`grants
      ensures View() == old(View()).Started(ticket, request)
    {
      activeCount := activeCount + 1;
      if Keyed(request) {
        var modes := if request.key.value in activeKeys then activeKeys[request.key.value] else [];
        activeKeys := activeKeys[request.key.value := modes + [EffectiveMode(request)]];
      }
      promises := promises[ticket := Some(ResourceLease(ticket, request))];
      held, grants := held + [Held(ticket, request)], grants + [Held(ticket, request)];
    }

    method Schedule()
      requires View().Consistent()
      modifies this`activeCount, this`activeKeys, this`held, this`grants, this`waiters, this`promises
      ensures Valid()
      ensures View() == old(View().Scheduled(Gone(waiters), 0))
    {
      ghost var gone := Gone(waiters);
      ghost var all := waiters;
      var index := 0;
      View().OnePassSettles(gone, 0);
      while index < |waiters|
        invariant index <= |waiters| && View().Scheduled(gone, index) == old(View()).Scheduled(gone, 0)
        invariant forall w | w in waiters :: w in all
        decreases |waiters| - index
      {
        var waiter := waiters[index];
        ghost var before := View();
        WithoutElements(waiters, index);
        assert waiter in all;
        if waiter.signal != null && waiter.signal.aborted {
          waiters := waiters[..index] + waiters[index + 1..];
          promises := promises[waiter.ticket := None];
          assert View() == before.Dropped(index);
        } else if !CanStart(waiter.request) {
          index := index + 1;
        } else {
          waiters := waiters[..index] + waiters[index + 1..];
          Start(waiter.ticket, waiter.request);
          assert View() == before.Granted(index);
        }
      }
    }

    // ---------------------------------------------------------------- public operations

    method Acquire(request: Request, signal: AbortSignal?) returns (ticket: nat)
      requires Valid()
      modifies this
      ensures Valid() && ticket == old(nextTicket)
      ensures View() == (
        var s := old(View()).(next := ticket + 1);
        if signal != null && signal.aborted then s.(promises := s.promises[ticket := None])
        else if old(CanStart(request)) then s.Started(ticket, request)
        else s.(waiters := s.waiters + [Waiter(ticket, request, signal)]))
    {
      hide State.Consistent;
      ghost var before := View();
      ticket := nextTicket;
      nextTicket := nextTicket + 1;
      if signal != null && signal.aborted {
        before.RefusedValid();
        promises := promises[ticket := None];
        assert View() == before.(promises := before.promises[ticket := None], next := ticket + 1);
      } else if CanStart(request) {
        before.NewcomerValid(request);
        Start(ticket, request);
        assert View() == before.(next := ticket + 1).Started(ticket, request);
      } else {
        before.QueuedValid(Waiter(ticket, request, signal));
        waiters := waiters + [Waiter(ticket, request, signal)];
        assert View() == before.(next := ticket + 1, waiters := before.waiters + [Waiter(ticket, request, signal)]);
      }
    }

    /** A lease's `release`: the first call frees exactly that lease and wakes the queue, later calls do nothing. */
    method Release(lease: ResourceLease)
      requires Valid()
      requires lease.ticket in promises && promises[lease.ticket] == Some(lease)
      modifies this
      ensures Valid() && lease.ticket in released
      ensures View() ==
        if old(lease.ticket in released) then old(View())
        else old(View().ReleasedAt(View().HeldIndex(lease.ticket)).Scheduled(Gone(waiters), 0))
    {
      if lease.ticket in released {
        return;
      }
      ghost var before := View();
      ghost var at := before.HeldIndex(lease.ticket);
      before.ReleasedConsistent(at);
      hide State.Consistent;
      released := released + {lease.ticket};
      activeCount := activeCount - 1;
      if Keyed(lease.request) {
        var key := lease.request.key.value;
        var modes := if key in activeKeys then activeKeys[key] else [];
        modes := if modes == [] then [] else modes[..|modes| - 1];
        activeKeys := if modes == [] then activeKeys - {key} else activeKeys[key := modes];
      }
      held := Without(held, at);
      assert View() == before.ReleasedAt(at);
      assert lease.ticket in View().released;
      View().ScheduleFrames(Gone(waiters), 0);
      Schedule();
    }

    /** The abort listener of one waiter: leave the queue if still in it. */
    method OnAbort(ticket: nat)
      requires Valid() && ticket < nextTicket
      modifies this
      ensures Valid()
      ensures View() == old(View()) || exists i ::
        0 <= i < |old(waiters)| && old(waiters)[i].ticket == ticket && View() == old(View()).Dropped(i)
      ensures ticket in promises
    {
      ghost var before := View();
      var index := 0;
      while index < |waiters| && waiters[index].ticket != ticket
        invariant index <= |waiters|
        invariant forall j | 0 <= j < index :: waiters[j].ticket != ticket
      {
        index := index + 1;
      }
      if index < |waiters| {
        before.DroppedConsistent(index);
        WithoutElements(waiters, index);
        waiters := waiters[..index] + waiters[index + 1..];
        promises := promises[ticket := None];
        assert View() == before.Dropped(index);
        assert before.Dropped(index).Settled();
      } else {
        assert !Waiting(waiters, ticket);
      }
    }
  }
}
