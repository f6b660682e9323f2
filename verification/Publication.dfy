/**
  Generation-checked publication of provider models (packages/ai/src/models.ts).

  A publication is an asynchronous job; between its awaits other jobs, refreshes and aborts run. Each
  method below is what happens from one await to the next, so runs are sequences of calls in any order.
 */
module Publications {
  import opened Wrappers

  datatype Persist = Keep | Delete | Write(entry: int)

  /** What a job does: a change of the store, then an in-memory update. */
  datatype Publication = Publication(persist: Persist, update: bool)

  /** `previous` is the tail of the provider's chain when the job was queued. */
  datatype Job = Job(provider: string, generation: nat, refresh: nat, previous: Option<nat>, publication: Publication)

  datatype Outcome = Applied | Stale | Failed

  datatype Phase = Waiting | Persisting | Settled(outcome: Outcome)

  datatype Refresh = Refresh(provider: string, generation: nat)

  datatype Entry =
    | Superseded(provider: string, generation: nat)
    | Started(job: nat)
    | Ended(job: nat)
    | Updated(job: nat)

  // ------------------------------------------------------------------ what the log promises

  ghost predicate Known(jobs: seq<Job>, e: Entry) {
    !e.Superseded? ==> e.job < |jobs|
  }

  /** An earlier and a later entry of the same provider. */
  ghost predicate InOrder(jobs: seq<Job>, x: Entry, y: Entry)
    requires Known(jobs, x) && Known(jobs, y)
  {
    match (x, y)
    case (Superseded(p, g), Started(t)) => p == jobs[t].provider ==> g <= jobs[t].generation
    case (Superseded(p, g), Updated(t)) => p == jobs[t].provider ==> g <= jobs[t].generation
    case (Updated(s), Updated(t)) => jobs[s].provider == jobs[t].provider ==> jobs[s].generation <= jobs[t].generation
    case (Started(s), Started(t)) => jobs[s].provider == jobs[t].provider ==>
      s < t && jobs[s].generation <= jobs[t].generation
    case _ => true
  }

  ghost predicate EndsWithin(log: seq<Entry>, job: nat, from: nat, to: nat) {
    exists c :: from < c < to && c < |log| && log[c] == Ended(job)
  }

  /**
    Changes of a provider's store never overlap and start in the order in which they were published;
    nothing of a generation below a superseding one is started or applied afterwards; and applied
    updates never go back to an earlier generation.
   */
  ghost predicate Orderly(jobs: seq<Job>, log: seq<Entry>) {
    && (forall a | 0 <= a < |log| :: Known(jobs, log[a]))
    && (forall a, b | 0 <= a < b < |log| :: InOrder(jobs, log[a], log[b]))
    && (forall a, b | 0 <= a < b < |log| && log[a].Started? && log[b].Started? &&
        jobs[log[a].job].provider == jobs[log[b].job].provider ::
          EndsWithin(log, log[a].job, a, b))
  }

  // ------------------------------------------------------------------ why

  predicate SameProvider(jobs: seq<Job>, i: nat, j: nat)
    requires i < |jobs| && j < |jobs|
  {
    jobs[i].provider == jobs[j].provider
  }

  /** All jobs of the provider before position `limit` are over. */
  ghost predicate AllSettled(jobs: seq<Job>, phases: seq<Phase>, provider: string, limit: nat)
    requires |jobs| == |phases|
  {
    forall i | 0 <= i < limit && i < |jobs| && jobs[i].provider == provider :: phases[i].Settled?
  }

  /** A job waits for the last job of its provider before it, unless all of those are over. */
  ghost predicate ChainsLinked(jobs: seq<Job>, phases: seq<Phase>, chains: map<string, nat>)
    requires |jobs| == |phases|
  {
    && (forall p | p in chains ::
          chains[p] < |jobs| && jobs[chains[p]].provider == p && forall i | chains[p] < i < |jobs| ::
              jobs[i].provider != p)
    && (forall j | 0 <= j < |jobs| && jobs[j].provider !in chains :: phases[j].Settled?)
    && (forall j | 0 <= j < |jobs| ::
          match jobs[j].previous {
            case None => AllSettled(jobs, phases, jobs[j].provider, j)
            case Some(q) => q < j && SameProvider(jobs, q, j) && forall i | q < i < j :: !SameProvider(jobs, i, j)
          })
  }

  /** A job that has begun found every earlier job of its provider over. */
  ghost predicate BegunInTurn(jobs: seq<Job>, phases: seq<Phase>)
    requires |jobs| == |phases|
  {
    forall j | 0 <= j < |jobs| && phases[j] != Waiting :: AllSettled(jobs, phases, jobs[j].provider, j)
  }

  function GenerationOf(generations: map<string, nat>, provider: string): nat {
    if provider in generations then generations[provider] else 0
  }

  /** No entry of the log is ahead of the provider's current generation. */
  ghost predicate NotAhead(jobs: seq<Job>, generations: map<string, nat>, log: seq<Entry>) {
    forall a | 0 <= a < |log| :: Known(jobs, log[a]) &&
      match log[a] {
        case Superseded(p, g) => g <= GenerationOf(generations, p)
        case Started(t) => jobs[t].generation <= GenerationOf(generations, jobs[t].provider)
        case Updated(t) => jobs[t].generation <= GenerationOf(generations, jobs[t].provider)
        case Ended(_) => true
      }
  }

  /** Store changes in the log are those of jobs that persist or did, and the latter have ended. */
  ghost predicate PhasesLogged(jobs: seq<Job>, phases: seq<Phase>, log: seq<Entry>)
    requires |jobs| == |phases|
  {
    forall a | 0 <= a < |log| && log[a].Started? :: log[a].job < |jobs| && phases[log[a].job] != Waiting &&
      (phases[log[a].job].Settled? ==> EndsWithin(log, log[a].job, a, |log|))
  }

  lemma NoOneAhead(jobs: seq<Job>, phases: seq<Phase>, chains: map<string, nat>, j: nat)
    requires |jobs| == |phases| && ChainsLinked(jobs, phases, chains) && BegunInTurn(jobs, phases) && j < |jobs|
    requires jobs[j].previous.None? || phases[jobs[j].previous.value].Settled?
    ensures AllSettled(jobs, phases, jobs[j].provider, j)
  {
    if jobs[j].previous.Some? {
      var q := jobs[j].previous.value;
      assert AllSettled(jobs, phases, jobs[q].provider, q);
      forall i | 0 <= i < j && jobs[i].provider == jobs[j].provider ensures phases[i].Settled? {
        assert i > q ==> !SameProvider(jobs, i, j);
      }
    }
  }

  /** A logged entry that concerns no store change, or one that may start now. */
  lemma LogExtends(jobs: seq<Job>, phases: seq<Phase>, generations: map<string, nat>, log: seq<Entry>, e: Entry)
    requires |jobs| == |phases| && Orderly(jobs, log) && NotAhead(jobs, generations, log) &&
        PhasesLogged(jobs, phases, log)
    requires Known(jobs, e) && BegunInTurn(jobs, phases)
    requires e.Started? || e.Updated? ==> jobs[e.job].generation == GenerationOf(generations, jobs[e.job].provider)
    requires e.Started? ==> phases[e.job] == Waiting && AllSettled(jobs, phases, jobs[e.job].provider, e.job)
    ensures Orderly(jobs, log + [e])
  {
    var all := log + [e];
    hide EndsWithin;
    forall a, b | 0 <= a < b < |all| ensures InOrder(jobs, all[a], all[b]) {
      if b == |log| && e.Started? && log[a].Started? && SameProvider(jobs, log[a].job, e.job) {
        StartedEarlier(jobs, phases, log, e.job, a);
      }
    }
    forall a, b | 0 <= a < b < |all| && all[a].Started? && all[b].Started? &&
        jobs[all[a].job].provider == jobs[all[b].job].provider
      ensures EndsWithin(all, all[a].job, a, b)
    {
      if b == |log| {
        StartedEarlier(jobs, phases, log, e.job, a);
      }
      EndsStill(log, e, all[a].job, a, b);
    }
  }

  lemma StartedEarlier(jobs: seq<Job>, phases: seq<Phase>, log: seq<Entry>, t: nat, a: nat)
    requires |jobs| == |phases| && PhasesLogged(jobs, phases, log) && BegunInTurn(jobs, phases) && t < |jobs| &&
        a < |log|
    requires phases[t] == Waiting && AllSettled(jobs, phases, jobs[t].provider, t)
    requires log[a].Started? && log[a].job < |jobs| && jobs[log[a].job].provider == jobs[t].provider
    ensures log[a].job < t && EndsWithin(log, log[a].job, a, |log|)
  {
    hide EndsWithin;
    var s := log[a].job;
    assert AllSettled(jobs, phases, jobs[s].provider, s);
  }

  lemma EndsStill(log: seq<Entry>, e: Entry, job: nat, a: nat, b: nat)
    requires EndsWithin(log, job, a, if b <= |log| then b else |log|)
    ensures EndsWithin(log + [e], job, a, b)
  {
    var c :| a < c && c < |log| && c < b && log[c] == Ended(job);
    assert (log + [e])[c] == Ended(job);
  }

  /** Everything the log promises, and what keeps it true. */
  ghost predicate Accounts(jobs: seq<Job>, phases: seq<Phase>, generations: map<string, nat>,
      chains: map<string, nat>, log: seq<Entry>) {
    && |jobs| == |phases|
    && ChainsLinked(jobs, phases, chains) && BegunInTurn(jobs, phases)
    && Orderly(jobs, log) && NotAhead(jobs, generations, log) && PhasesLogged(jobs, phases, log)
  }

  lemma SupersedingAccounts(jobs: seq<Job>, phases: seq<Phase>, generations: map<string, nat>, chains: map<string, nat>,
                            log: seq<Entry>, p: string, g: nat)
    requires Accounts(jobs, phases, generations, chains, log) && g == GenerationOf(generations, p) + 1
    ensures Accounts(jobs, phases, generations[p := g], chains, log + [Superseded(p, g)])
  {
    LogExtends(jobs, phases, generations, log, Superseded(p, g));
    LogGrows(log, Superseded(p, g));
    hide EndsWithin, ChainsLinked, BegunInTurn, Orderly;
  }

  lemma LogGrows(log: seq<Entry>, e: Entry)
    ensures forall job: nat, a: nat | EndsWithin(log, job, a, |log|) :: EndsWithin(log + [e], job, a, |log + [e]|)
  {
    forall job: nat, a: nat | EndsWithin(log, job, a, |log|) ensures EndsWithin(log + [e], job, a, |log + [e]|) {
      var c :| a < c < |log| && log[c] == Ended(job);
      assert (log + [e])[c] == Ended(job);
    }
  }

  /** A new job joins the end of its provider's chain. */
  lemma QueuedAccounts(jobs: seq<Job>, phases: seq<Phase>, generations: map<string, nat>, chains: map<string, nat>,
                       log: seq<Entry>, job: Job)
    requires Accounts(jobs, phases, generations, chains, log)
    requires job.previous == if job.provider in chains then Some(chains[job.provider]) else None
    ensures Accounts(jobs + [job], phases + [Waiting], generations, chains[job.provider := |jobs|], log)
  {
    var jobs', phases' := jobs + [job], phases + [Waiting];
    hide EndsWithin;
    assert forall j | 0 <= j < |jobs| ::
        AllSettled(jobs, phases, jobs[j].provider, j) ==> AllSettled(jobs', phases', jobs[j].provider, j);
    assert job.previous.None? ==> AllSettled(jobs', phases', job.provider, |jobs|);
    ChainGrows(jobs, phases, chains, job);
    hide ChainsLinked;
  }

  lemma ChainGrows(jobs: seq<Job>, phases: seq<Phase>, chains: map<string, nat>, job: Job)
    requires |jobs| == |phases| && ChainsLinked(jobs, phases, chains)
    requires job.previous == if job.provider in chains then Some(chains[job.provider]) else None
    ensures ChainsLinked(jobs + [job], phases + [Waiting], chains[job.provider := |jobs|])
  {
    var jobs', phases' := jobs + [job], phases + [Waiting];
    forall j | 0 <= j < |jobs'|
      ensures match jobs'[j].previous {
        case None => AllSettled(jobs', phases', jobs'[j].provider, j)
        case Some(q) => q < j && SameProvider(jobs', q, j) && forall i | q < i < j :: !SameProvider(jobs', i, j)
      }
    {
      if j < |jobs| && jobs[j].previous.Some? {
        var q := jobs[j].previous.value;
        assert SameProvider(jobs, q, j);
        assert forall i | q < i < j :: SameProvider(jobs', i, j) == SameProvider(jobs, i, j);
      }
    }
  }

  /** One job moves on; `begins` when it leaves its place in the queue. */
  lemma MovedAccounts(jobs: seq<Job>, phases: seq<Phase>, chains: map<string, nat>, j: nat, phase: Phase)
    requires |jobs| == |phases| && j < |jobs| && ChainsLinked(jobs, phases, chains) && BegunInTurn(jobs, phases)
    requires phase != Waiting && !phases[j].Settled? && AllSettled(jobs, phases, jobs[j].provider, j)
    ensures ChainsLinked(jobs, phases[j := phase], chains) && BegunInTurn(jobs, phases[j := phase])
  {
    var phases' := phases[j := phase];
    assert forall i | 0 <= i < |jobs| ::
        AllSettled(jobs, phases, jobs[i].provider, i) ==> AllSettled(jobs, phases', jobs[i].provider, i);
  }

  /** What one entry, or none, and the new phase of its job do to the log's bookkeeping. */
  lemma EntryAccounts(jobs: seq<Job>, phases: seq<Phase>, generations: map<string, nat>, log: seq<Entry>,
                      j: nat, phase: Phase, e: Entry)
    requires |jobs| == |phases| && j < |jobs| && NotAhead(jobs, generations, log) && PhasesLogged(jobs, phases, log)
    requires Known(jobs, e) && phase != Waiting
    requires e.Started? || e.Updated? ==> jobs[e.job].generation == GenerationOf(generations, jobs[e.job].provider)
    requires !e.Superseded?
    requires e.Started? ==> e.job == j && phase == Persisting
    requires phase.Settled? && phases[j] != Waiting ==> e == Ended(j) || phases[j].Settled?
    requires phase.Settled? && phases[j] == Waiting ==> forall a | 0 <= a < |log| && log[a].Started? :: log[a].job != j
    ensures NotAhead(jobs, generations, log + [e]) && PhasesLogged(jobs, phases[j := phase], log + [e])
  {
    var log' := log + [e];
    LogGrows(log, e);
    forall a | 0 <= a < |log'| && log'[a].Started?
      ensures log'[a].job < |jobs| && phases[j := phase][log'[a].job] != Waiting
      ensures phases[j := phase][log'[a].job].Settled? ==> EndsWithin(log', log'[a].job, a, |log'|)
    {
      if a < |log| && log[a].job == j && phase.Settled? && !phases[j].Settled? {
        assert log'[|log|] == Ended(j);
      }
    }
  }

  lemma QuietAccounts(jobs: seq<Job>, phases: seq<Phase>, log: seq<Entry>, j: nat, outcome: Outcome)
    requires |jobs| == |phases| && j < |jobs| && PhasesLogged(jobs, phases, log) && phases[j] == Waiting
    ensures PhasesLogged(jobs, phases[j := Settled(outcome)], log)
  {
    hide EndsWithin;
  }

  // ------------------------------------------------------------------ the models

  predicate JobOf(job: Job, refresh: Refresh) {
    job.provider == refresh.provider && job.generation == refresh.generation
  }

  ghost predicate JobsOf(jobs: seq<Job>, refreshes: seq<Refresh>) {
    forall j | 0 <= j < |jobs| :: jobs[j].refresh < |refreshes| && JobOf(jobs[j], refreshes[jobs[j].refresh])
  }

  lemma MoreRefreshes(jobs: seq<Job>, refreshes: seq<Refresh>, r: Refresh)
    requires JobsOf(jobs, refreshes)
    ensures JobsOf(jobs, refreshes + [r])
  {
  }

  /** A registered controller is of the current generation; a superseded refresh still at work is aborted. */
  ghost predicate RefreshesOk(refreshes: seq<Refresh>, aborted: seq<bool>, running: set<nat>,
                              controllers: map<string, nat>, generations: map<string, nat>) {
    && |refreshes| == |aborted|
    && (forall p | p in controllers ::
          controllers[p] < |refreshes| && refreshes[controllers[p]] == Refresh(p, GenerationOf(generations, p)))
    && (forall k | 0 <= k < |refreshes| :: refreshes[k].generation <= GenerationOf(generations, refreshes[k].provider))
    && (forall k | k in running :: k < |refreshes| &&
          (aborted[k] || (refreshes[k].provider in controllers && controllers[refreshes[k].provider] == k)))
  }

  function Aborting(aborted: seq<bool>, controllers: map<string, nat>, p: string): seq<bool> {
    if p in controllers && controllers[p] < |aborted| then aborted[controllers[p] := true] else aborted
  }

  lemma SupersedingRefreshes(refreshes: seq<Refresh>, aborted: seq<bool>, running: set<nat>,
                             controllers: map<string, nat>, generations: map<string, nat>, p: string, g: nat)
    requires RefreshesOk(refreshes, aborted, running, controllers, generations) && g == GenerationOf(generations, p) + 1
    ensures p in controllers ==> controllers[p] < |aborted|
    ensures var aborted' := Aborting(aborted, controllers, p);
      && RefreshesOk(refreshes, aborted', running, controllers - {p}, generations[p := g])
      && forall k | k in running && refreshes[k].provider == p :: aborted'[k]
  {
  }

  lemma BeginningRefreshes(refreshes: seq<Refresh>, aborted: seq<bool>, running: set<nat>,
                           controllers: map<string, nat>, generations: map<string, nat>, p: string)
    requires RefreshesOk(refreshes, aborted, running, controllers, generations)
    requires p !in controllers && forall k | k in running && refreshes[k].provider == p :: aborted[k]
    ensures |refreshes| == |aborted|
    ensures RefreshesOk(refreshes + [Refresh(p, GenerationOf(generations, p))], aborted + [false],
        running + {|refreshes|},
                        controllers[p := |refreshes|], generations)
  {
  }

  lemma NothingYet()
    ensures Accounts([], [], map[], map[], []) && RefreshesOk([], [], {}, map[], map[]) && JobsOf([], [])
  {
  }

  /** One step of the program or of its environment; a step that is not possible now does nothing. */
  datatype Step =
    | Supersede(provider: string) | Begin(provider: string) | Abort(refresh: nat) | End(refresh: nat)
    | Publish(refresh: nat, publication: Publication)
    | Continue(job: nat, throws: bool) | StoreAnswers(job: nat, ok: bool, throws: bool) | Clean(job: nat)

  /** The job waits, and what it waits for is over. */
  predicate Ready(jobs: seq<Job>, phases: seq<Phase>, j: nat) {
    && j < |jobs| && j < |phases| && phases[j] == Waiting
    && (jobs[j].previous.None? || (jobs[j].previous.value < |phases| && phases[jobs[j].previous.value].Settled?))
  }

  /** Everything the steps change. */
  datatype State = State(
    generations: map<string, nat>, controllers: map<string, nat>, chains: map<string, nat>,
    refreshes: seq<Refresh>, aborted: seq<bool>, running: set<nat>, jobs: seq<Job>, phases: seq<Phase>, log: seq<Entry>)
  {
    function Superseding(p: string): State {
      var generation := GenerationOf(generations, p) + 1;
      this.(generations := generations[p := generation], controllers := controllers - {p},
            aborted := Aborting(aborted, controllers, p), log := log + [Superseded(p, generation)])
    }

    function Beginning(p: string): State {
      var s := Superseding(p);
      s.(refreshes := refreshes + [Refresh(p, GenerationOf(s.generations, p))], aborted := s.aborted + [false],
         running := running + {|refreshes|}, controllers := s.controllers[p := |refreshes|])
    }

    function Ending(k: nat): State
      requires k < |refreshes|
    {
      var p := refreshes[k].provider;
      this.(running := running - {k},
            controllers := if p in controllers && controllers[p] == k then controllers - {p} else controllers)
    }

    function Publishing(k: nat, publication: Publication): State
      requires k < |refreshes|
    {
      var p := refreshes[k].provider;
      var previous := if p in chains then Some(chains[p]) else None;
      this.(jobs := jobs + [Job(p, refreshes[k].generation, k, previous, publication)], phases := phases + [Waiting],
            chains := chains[p := |jobs|])
    }

    predicate IsStale(j: nat)
      requires j < |jobs|
    {
      (jobs[j].refresh < |aborted| && aborted[jobs[j].refresh]) ||
      GenerationOf(generations, jobs[j].provider) != jobs[j].generation
    }

    function Updating(j: nat, throws: bool): State
      requires j < |jobs| && j < |phases|
    {
      var updates := jobs[j].publication.update;
      this.(log := if updates then log + [Updated(j)] else log,
            phases := phases[j := Settled(if updates && throws then Failed else Applied)])
    }

    function Continuing(j: nat, throws: bool): State
      requires Ready(jobs, phases, j)
    {
      if IsStale(j) then this.(phases := phases[j := Settled(Stale)])
      else if jobs[j].publication.persist != Keep
      then this.(log := log + [Started(j)], phases := phases[j := Persisting])
      else Updating(j, throws)
    }

    function Answered(j: nat, ok: bool, throws: bool): State
      requires j < |jobs| && j < |phases|
    {
      var ended := this.(log := log + [Ended(j)]);
      if !ok then ended.(phases := phases[j := Settled(Failed)])
      else if IsStale(j) then ended.(phases := phases[j := Settled(Stale)])
      else ended.Updating(j, throws)
    }

    function Cleaned(j: nat): State
      requires j < |jobs|
    {
      var p := jobs[j].provider;
      if p in chains && chains[p] == j then this.(chains := chains - {p}) else this
    }

    /** What a step does, if it is possible. */
    function After(step: Step): State {
      match step
      case Supersede(p) => Superseding(p)
      case Begin(p) => Beginning(p)
      case Abort(k) => if k < |refreshes| && k < |aborted| then this.(aborted := aborted[k := true]) else this
      case End(k) => if k < |refreshes| then Ending(k) else this
      case Publish(k, publication) => if k < |refreshes| then Publishing(k, publication) else this
      case Continue(j, throws) => if Ready(jobs, phases, j) then Continuing(j, throws) else this
      case StoreAnswers(j, ok, throws) =>
        if j < |jobs| && j < |phases| && phases[j] == Persisting then Answered(j, ok, throws) else this
      case Clean(j) => if j < |jobs| && j < |phases| && phases[j].Settled? then Cleaned(j) else this
    }

    function AfterAll(steps: seq<Step>): State {
      if steps == [] then this else AfterAll(steps[..|steps| - 1]).After(steps[|steps| - 1])
    }
  }

  const NOTHING: State := State(map[], map[], map[], [], [], {}, [], [], [])

  class Models {
    var refreshGenerations: map<string, nat>
    /** The refresh whose controller is registered for a provider. */
    var refreshControllers: map<string, nat>
    /** The job at the end of a provider's chain. */
    var publicationChains: map<string, nat>
    var refreshes: seq<Refresh>
    /** Whether the signal of a refresh is aborted, by its controller or by its caller. */
    var aborted: seq<bool>
    var jobs: seq<Job>
    var phases: seq<Phase>
    /** Refreshes that have not returned. */
    ghost var running: set<nat>
    ghost var log: seq<Entry>

    ghost function View(): State
      reads this
    {
      State(refreshGenerations, refreshControllers, publicationChains, refreshes, aborted, running, jobs, phases, log)
    }

    ghost predicate Valid()
      reads this
    {
      && RefreshesOk(refreshes, aborted, running, refreshControllers, refreshGenerations)
      && JobsOf(jobs, refreshes)
      && Accounts(jobs, phases, refreshGenerations, publicationChains, log)
    }

    constructor ()
      ensures Valid() && View() == NOTHING
    {
      refreshGenerations, refreshControllers, publicationChains := map[], map[], map[];
      refreshes, aborted, jobs, phases, log, running := [], [], [], [], [], {};
      NothingYet();
      hide Accounts, RefreshesOk, JobsOf;
    }

    /** A new generation: whatever refresh is registered is aborted and can publish nothing any more. */
    method SupersedeProviderRefresh(provider: string) returns (generation: nat)
      requires Valid()
      modifies this`refreshGenerations, this`refreshControllers, this`aborted, this`log
      ensures Valid() && generation == GenerationOf(old(refreshGenerations), provider) + 1
      ensures forall k | k in running && refreshes[k].provider == provider :: aborted[k]
      ensures View() == old(View()).Superseding(provider)
    {
      hide Accounts, RefreshesOk, GenerationOf, JobsOf;
      generation := GenerationOf(refreshGenerations, provider) + 1;
      SupersedingAccounts(jobs, phases, refreshGenerations, publicationChains, log, provider, generation);
      SupersedingRefreshes(refreshes, aborted, running, refreshControllers, refreshGenerations, provider, generation);
      refreshGenerations := refreshGenerations[provider := generation];
      log := log + [Superseded(provider, generation)];
      if provider in refreshControllers {
        var previous := refreshControllers[provider];
        refreshControllers := refreshControllers - {provider};
        aborted := aborted[previous := true];
      } else {
        assert refreshControllers - {provider} == refreshControllers;
      }
    }

    method BeginProviderRefresh(provider: string) returns (k: nat)
      requires Valid()
      modifies this`refreshGenerations, this`refreshControllers, this`aborted, this`log, this`refreshes, this`running
      ensures Valid() && k == |old(refreshes)| && running == old(running) + {k}
      ensures refreshes == old(refreshes) + [Refresh(provider, GenerationOf(old(refreshGenerations), provider) + 1)]
      ensures log == old(log) + [Superseded(provider, refreshes[k].generation)]
      ensures refreshControllers == old(refreshControllers)[provider := k] && !aborted[k]
      ensures View() == old(View()).Beginning(provider)
    {
      hide Accounts, RefreshesOk, JobsOf;
      var generation := SupersedeProviderRefresh(provider);
      BeginningRefreshes(refreshes, aborted, running, refreshControllers, refreshGenerations, provider);
      k := |refreshes|;
      assert JobsOf(jobs, refreshes + [Refresh(provider, generation)]) by {
        MoreRefreshes(jobs, refreshes, Refresh(provider, generation));
      }
      refreshes, aborted, running := refreshes + [Refresh(provider, generation)], aborted + [false], running + {k};
      refreshControllers := refreshControllers[provider := k];
      assert refreshControllers == old(refreshControllers)[provider := k];
    }

    /** The caller of a refresh aborts it. */
    method AbortCaller(k: nat)
      requires Valid() && k < |refreshes|
      modifies this`aborted
      ensures Valid() && aborted == old(aborted)[k := true]
      ensures k < |old(aborted)|
    {
      hide Accounts;
      aborted := aborted[k := true];
    }

    /** A refresh returns and takes its controller with it unless a newer one is registered. */
    method EndRefresh(k: nat)
      requires Valid() && k < |refreshes|
      modifies this`refreshControllers, this`running
      ensures Valid() && running == old(running) - {k}
      ensures forall p :: p in refreshControllers <==> p in old(refreshControllers) && old(refreshControllers)[p] != k
      ensures forall p | p in refreshControllers :: refreshControllers[p] == old(refreshControllers)[p]
      ensures View() == old(View()).Ending(k)
    {
      hide Accounts;
      var provider := refreshes[k].provider;
      running := running - {k};
      if provider in refreshControllers && refreshControllers[provider] == k {
        refreshControllers := refreshControllers - {provider};
      }
    }

    /** Queue a publication of refresh `k`, which may long have been superseded. */
    method PublishProviderModels(k: nat, publication: Publication) returns (j: nat)
      requires Valid() && k < |refreshes|
      modifies this`jobs, this`phases, this`publicationChains
      ensures Valid() && j == |old(jobs)| && phases == old(phases) + [Waiting]
      ensures |jobs| == j + 1 && jobs[..j] == old(jobs)
      ensures jobs[j].provider == refreshes[k].provider && jobs[j].generation == refreshes[k].generation
      ensures jobs[j].refresh == k && jobs[j].publication == publication
      ensures publicationChains == old(publicationChains)[refreshes[k].provider := j]
      ensures View() == old(View()).Publishing(k, publication)
    {
      var provider := refreshes[k].provider;
      var previous := if provider in publicationChains then Some(publicationChains[provider]) else None;
      var job := Job(provider, refreshes[k].generation, k, previous, publication);
      QueuedAccounts(jobs, phases, refreshGenerations, publicationChains, log, job);
      hide Accounts, RefreshesOk;
      assert JobsOf(jobs + [job], refreshes);
      hide JobsOf;
      j := |jobs|;
      jobs, phases, publicationChains := jobs + [job], phases + [Waiting], publicationChains[provider := |jobs|];
    }

    /** Whether the job has been overtaken. */
    predicate IsStale(j: nat)
      requires j < |jobs| && jobs[j].refresh < |aborted|
      reads this
    {
      aborted[jobs[j].refresh] || GenerationOf(refreshGenerations, jobs[j].provider) != jobs[j].generation
    }

    /** The previous job is over: check, then start the store change, or update if there is none. */
    method Resume(j: nat, updateThrows: bool)
      requires Valid() && j < |jobs| && phases[j] == Waiting
      requires jobs[j].previous.None? || (jobs[j].previous.value < |phases| && phases[jobs[j].previous.value].Settled?)
      modifies this`phases, this`log
      ensures Valid()
      ensures if old(IsStale(j)) then log == old(log) && phases == old(phases)[j := Settled(Stale)]
              else if jobs[j].publication.persist != Keep then log == old(log) + [Started(j)] &&
                  phases == old(phases)[j := Persisting]
              else UpdateLogged(j, old(log), old(phases), updateThrows)
      ensures View() == old(View()).Continuing(j, updateThrows)
    {
      NoOneAhead(jobs, phases, publicationChains, j);
      if IsStale(j) {
        MovedAccounts(jobs, phases, publicationChains, j, Settled(Stale));
        QuietAccounts(jobs, phases, log, j, Stale);
        hide ChainsLinked, BegunInTurn, Orderly, NotAhead, PhasesLogged;
        phases := phases[j := Settled(Stale)];
      } else if jobs[j].publication.persist != Keep {
        LogExtends(jobs, phases, refreshGenerations, log, Started(j));
        MovedAccounts(jobs, phases, publicationChains, j, Persisting);
        EntryAccounts(jobs, phases, refreshGenerations, log, j, Persisting, Started(j));
        hide ChainsLinked, BegunInTurn, Orderly, NotAhead, PhasesLogged;
        log, phases := log + [Started(j)], phases[j := Persisting];
      } else {
        Apply(j, updateThrows);
      }
    }

    /** What applying a publication leaves behind. */
    ghost predicate UpdateLogged(j: nat, log0: seq<Entry>, phases0: seq<Phase>, updateThrows: bool)
      requires j < |jobs| && j < |phases0|
      reads this
    {
      && log == (if jobs[j].publication.update then log0 + [Updated(j)] else log0)
      && phases == phases0[j := Settled(if jobs[j].publication.update && updateThrows then Failed else Applied)]
    }

    /** The update runs while the job's generation is the provider's current one. */
    method Apply(j: nat, updateThrows: bool)
      requires Valid() && j < |jobs| && phases[j] == Waiting && !IsStale(j)
      requires AllSettled(jobs, phases, jobs[j].provider, j)
      modifies this`phases, this`log
      ensures Valid() && UpdateLogged(j, old(log), old(phases), updateThrows)
    {
      var outcome := if jobs[j].publication.update && updateThrows then Failed else Applied;
      MovedAccounts(jobs, phases, publicationChains, j, Settled(outcome));
      if jobs[j].publication.update {
        LogExtends(jobs, phases, refreshGenerations, log, Updated(j));
        EntryAccounts(jobs, phases, refreshGenerations, log, j, Settled(outcome), Updated(j));
        hide ChainsLinked, BegunInTurn, Orderly, NotAhead, PhasesLogged;
        log, phases := log + [Updated(j)], phases[j := Settled(outcome)];
      } else {
        QuietAccounts(jobs, phases, log, j, outcome);
        hide ChainsLinked, BegunInTurn, Orderly, NotAhead, PhasesLogged;
        phases := phases[j := Settled(outcome)];
      }
    }

    /** The store has answered: check again, then update. */
    method PersistSettled(j: nat, ok: bool, updateThrows: bool)
      requires Valid() && j < |jobs| && phases[j] == Persisting
      modifies this`phases, this`log
      ensures Valid()
      ensures if !ok then log == old(log) + [Ended(j)] && phases == old(phases)[j := Settled(Failed)]
              else if old(IsStale(j)) then log == old(log) + [Ended(j)] && phases == old(phases)[j := Settled(Stale)]
              else UpdateLogged(j, old(log) + [Ended(j)], old(phases), updateThrows)
      ensures View() == old(View()).Answered(j, ok, updateThrows)
    {
      var stale := IsStale(j);
      var outcome :=
        if !ok then Failed else if stale then Stale
        else if jobs[j].publication.update && updateThrows then Failed else Applied;
      EndAccounts(jobs, phases, refreshGenerations, publicationChains, log, j, outcome);
      if ok && !stale && jobs[j].publication.update {
        UpdateAccounts(jobs, phases[j := Settled(outcome)], refreshGenerations, publicationChains, log + [Ended(j)], j);
        hide Accounts;
        log, phases := log + [Ended(j)] + [Updated(j)], phases[j := Settled(outcome)];
      } else {
        hide Accounts;
        log, phases := log + [Ended(j)], phases[j := Settled(outcome)];
      }
    }

    /** The tail of a chain is over and nothing was queued behind it. */
    method Cleanup(j: nat)
      requires Valid() && j < |jobs| && phases[j].Settled?
      modifies this`publicationChains
      ensures Valid()
      ensures publicationChains ==
        if jobs[j].provider in old(publicationChains) && old(publicationChains)[jobs[j].provider] == j
        then old(publicationChains) - {jobs[j].provider} else old(publicationChains)
      ensures View() == old(View()).Cleaned(j)
    {
      var provider := jobs[j].provider;
      if provider in publicationChains && publicationChains[provider] == j {
        CleanAccounts(jobs, phases, refreshGenerations, publicationChains, log, j);
        hide Accounts;
        publicationChains := publicationChains - {provider};
      }
    }
  }

  lemma EndAccounts(jobs: seq<Job>, phases: seq<Phase>, generations: map<string, nat>, chains: map<string, nat>,
                    log: seq<Entry>, j: nat, outcome: Outcome)
    requires Accounts(jobs, phases, generations, chains, log) && j < |jobs| && phases[j] == Persisting
    ensures Accounts(jobs, phases[j := Settled(outcome)], generations, chains, log + [Ended(j)])
  {
    LogExtends(jobs, phases, generations, log, Ended(j));
    MovedAccounts(jobs, phases, chains, j, Settled(outcome));
    EntryAccounts(jobs, phases, generations, log, j, Settled(outcome), Ended(j));
    hide ChainsLinked, BegunInTurn, Orderly, NotAhead, PhasesLogged;
  }

  lemma UpdateAccounts(jobs: seq<Job>, phases: seq<Phase>, generations: map<string, nat>, chains: map<string, nat>,
                       log: seq<Entry>, j: nat)
    requires Accounts(jobs, phases, generations, chains, log) && j < |jobs| && phases[j].Settled?
    requires jobs[j].generation == GenerationOf(generations, jobs[j].provider)
    ensures Accounts(jobs, phases, generations, chains, log + [Updated(j)])
  {
    LogExtends(jobs, phases, generations, log, Updated(j));
    EntryAccounts(jobs, phases, generations, log, j, phases[j], Updated(j));
    assert phases[j := phases[j]] == phases;
    hide ChainsLinked, BegunInTurn, Orderly, NotAhead, PhasesLogged;
  }

  lemma CleanAccounts(jobs: seq<Job>, phases: seq<Phase>, generations: map<string, nat>, chains: map<string, nat>,
                      log: seq<Entry>, j: nat)
    requires Accounts(jobs, phases, generations, chains, log) && j < |jobs| && phases[j].Settled?
    requires jobs[j].provider in chains && chains[jobs[j].provider] == j
    ensures Accounts(jobs, phases, generations, chains - {jobs[j].provider}, log)
  {
    assert AllSettled(jobs, phases, jobs[j].provider, j);
    hide Orderly, NotAhead, PhasesLogged, BegunInTurn;
  }

  method Perform(m: Models, step: Step)
    requires m.Valid()
    modifies m
    ensures m.Valid() && m.View() == old(m.View()).After(step)
    ensures old(m.log) <= m.log && |old(m.jobs)| <= |m.jobs|
  {
    hide Accounts, RefreshesOk, JobsOf;
    match step {
      case Supersede(p) => var _ := m.SupersedeProviderRefresh(p);
      case Begin(p) => var _ := m.BeginProviderRefresh(p);
      case Abort(k) => if k < |m.refreshes| { m.AbortCaller(k); }
      case End(k) => if k < |m.refreshes| { m.EndRefresh(k); }
      case Publish(k, publication) => if k < |m.refreshes| { var _ := m.PublishProviderModels(k, publication); }
      case Continue(j, throws) =>
        if Ready(m.jobs, m.phases, j) {
          m.Resume(j, throws);
        }
      case StoreAnswers(j, ok, throws) =>
        if j < |m.jobs| && j < |m.phases| && m.phases[j] == Persisting {
          m.PersistSettled(j, ok, throws);
        }
      case Clean(j) =>
        if j < |m.jobs| && j < |m.phases| && m.phases[j].Settled? {
          m.Cleanup(j);
        }
    }
  }

  /** Every run, whatever the order of its steps, leaves an orderly log. */
  method Run(steps: seq<Step>) returns (m: Models)
    ensures fresh(m) && m.Valid() && m.View() == NOTHING.AfterAll(steps) && Orderly(m.jobs, m.log)
  {
    m := new Models();
    hide Accounts, RefreshesOk, JobsOf, State.After, Orderly;
    assert steps[..0] == [];
    for i := 0 to |steps|
      invariant m.Valid() && fresh(m) && m.View() == NOTHING.AfterAll(steps[..i])
    {
      Perform(m, steps[i]);
      assert steps[..i + 1][..i] == steps[..i];
    }
    assert steps[..|steps|] == steps;
    LogIsOrderly(m);
  }

  lemma LogIsOrderly(m: Models)
    requires m.Valid()
    ensures Orderly(m.jobs, m.log)
  {
  }

  /** At most one change of a provider's store is going on. */
  lemma OnePersists(jobs: seq<Job>, phases: seq<Phase>, generations: map<string, nat>, chains: map<string, nat>,
      log: seq<Entry>,
                    i: nat, j: nat)
    requires Accounts(jobs, phases, generations, chains, log) && i < |jobs| && j < |jobs|
    requires phases[i] == Persisting && phases[j] == Persisting && jobs[i].provider == jobs[j].provider
    ensures i == j
  {
    assert AllSettled(jobs, phases, jobs[i].provider, i) && AllSettled(jobs, phases, jobs[j].provider, j);
    hide Orderly, NotAhead, PhasesLogged, ChainsLinked;
  }
}
