/** Whole runs of the cron scheduler: how close two triggers of one profile can be. */
module CronRuns {
  import opened Prelude
  import opened Scheduler

  /** One trigger of a profile: when, and the least distance its schedule allows. */
  datatype Trigger = Trigger(profileId: string, at: nat, gap: nat)

  /** The table, the collection whose outcomes are still out, the clock, and all triggers so far. */
  datatype World = World(jobs: seq<Job>, flight: Option<seq<Due>>, now: nat, log: seq<Trigger>)

  const INITIAL := World([], None, 0, [])

  /** The three critical sections, in any order that the single scheduler thread and reloads can produce. */
  datatype Tick =
    | Collect(at: nat)
    | Reload(items: seq<Item>, at: nat)
    | Apply(errors: seq<Option<string>>, times: seq<nat>)

  ghost predicate DistinctUids(items: seq<Item>) {
    forall i, j :: 0 <= i < j < |items| ==> items[i].uid != items[j].uid
  }

  /** Time does not run backwards, one collection is out at a time, and profiles have distinct uids. */
  ghost predicate Possible(w: World, t: Tick) {
    match t
    case Collect(at) => w.flight.None? && at >= w.now
    case Reload(items, at) => at >= w.now && DistinctUids(items)
    case Apply(errors, times) =>
      && w.flight.Some? && |errors| == |times| == |w.flight.value|
      && (forall m :: 0 <= m < |times| ==> times[m] >= w.now)
      && (forall l, m :: 0 <= l < m < |times| ==> times[l] <= times[m])
  }

  /** The triggers of a collection. */
  function Triggers(jobs: seq<Job>, n: nat, at: nat): seq<Trigger>
    requires n <= |jobs|
  {
    if n == 0 then []
    else Triggers(jobs, n - 1, at)
         + (if jobs[n - 1].IsDue(at) then [Trigger(jobs[n - 1].profileId, at, Gap(jobs[n - 1].schedule))] else [])
  }

  function Next(w: World, t: Tick): World {
    match t
    case Collect(at) => World(w.jobs, Some(DueJobs(w.jobs, at)), at, w.log + Triggers(w.jobs, |w.jobs|, at))
    case Reload(items, at) => w.(jobs := JobsFor(items, at), now := at)
    case Apply(errors, times) =>
      if w.flight.Some? && |errors| == |times| == |w.flight.value| then
        var attempts := Attempts(w.flight.value, errors, times);
        World(Applied(w.jobs, attempts, |attempts|), None,
              if times == [] then w.now else times[|times| - 1], w.log)
      else w
  }

  /** The world after a run of ticks. */
  function After(ticks: seq<Tick>): World {
    if ticks == [] then INITIAL else Next(After(ticks[..|ticks| - 1]), ticks[|ticks| - 1])
  }

  ghost predicate PossibleRun(ticks: seq<Tick>) {
    ticks == [] || (PossibleRun(ticks[..|ticks| - 1]) && Possible(After(ticks[..|ticks| - 1]), ticks[|ticks| - 1]))
  }

  /** What one critical section of the real table does to such a world. */
  ghost predicate Mirrors(t: CronTable, w: World)
    reads t, t.jobs
  {
    t.Valid() && t.View() == w.jobs
  }

  /** Collecting, reloading and applying on the table object are the ticks of a run. */
  method Observe(t: CronTable, tick: Tick, flight: seq<Due>, ghost w: World) returns (collected: seq<Due>)
    requires Mirrors(t, w)
    requires tick.Apply? ==> w.flight == Some(flight) && |tick.errors| == |tick.times| == |flight|
    modifies t, t.jobs
    ensures Mirrors(t, Next(w, tick))
    ensures tick.Collect? ==> Next(w, tick).flight == Some(collected)
  {
    collected := flight;
    match tick {
      case Collect(at) => collected := t.CollectDue(at);
      case Reload(items, at) => t.LoadCronJobs(Some(items), at);
      case Apply(errors, times) => t.ApplyResults(Attempts(flight, errors, times));
    }
  }

  /** Each collected job is one trigger at that moment, with the least distance its interval allows. */
  lemma {:induction false} TriggersAreDue(jobs: seq<Job>, n: nat, at: nat)
    requires n <= |jobs|
    ensures |Triggers(jobs, n, at)| == |DueAmong(jobs, n, at)|
    ensures forall m :: 0 <= m < |DueAmong(jobs, n, at)| ==>
              var t, d := Triggers(jobs, n, at)[m], DueAmong(jobs, n, at)[m];
              && d.index < |jobs| && t.profileId == d.profileId && t.at == at
              && var secs := jobs[d.index].schedule.minutes * 60;
                 t.gap == if secs < 21600 then secs else 21600
  {
    if n > 0 {
      TriggersAreDue(jobs, n - 1, at);
    }
  }

  /** A collection out of a run: every job that is due is triggered, and only those. */
  lemma CollectionTriggers(w: World, at: nat, i: nat)
    requires i < |w.jobs|
    ensures var next := Next(w, Collect(at));
            && w.log <= next.log && |next.log| == |w.log| + |DueJobs(w.jobs, at)|
            && (at >= w.jobs[i].nextRun <==>
                  exists m :: 0 <= m < |DueJobs(w.jobs, at)| && DueJobs(w.jobs, at)[m].index == i)
            && forall m :: 0 <= m < |DueJobs(w.jobs, at)| ==>
                 next.log[|w.log| + m].profileId == DueJobs(w.jobs, at)[m].profileId && next.log[|w.log| + m].at == at
  {
    TriggersAreDue(w.jobs, |w.jobs|, at);
    DueAmongMeans(w.jobs, |w.jobs|, at);
    if at >= w.jobs[i].nextRun {
      assert Due(i, w.jobs[i].profileId, w.jobs[i].url) in DueJobs(w.jobs, at);
    }
  }

  // ----- The invariant -----

  /** Any two triggers of one profile keep the distance that the later one's schedule demands, at least a minute. */
  ghost predicate Spaced(log: seq<Trigger>) {
    && (forall a :: 0 <= a < |log| ==> log[a].gap >= 60)
    && (forall a, b :: 0 <= a < b < |log| && log[a].profileId == log[b].profileId ==>
          log[b].at >= log[a].at + log[b].gap)
  }

  ghost predicate DistinctJobs(jobs: seq<Job>) {
    && (forall i, j :: 0 <= i < j < |jobs| ==> jobs[i].profileId != jobs[j].profileId)
    && (forall i :: 0 <= i < |jobs| ==> jobs[i].schedule.InRange())
  }

  /** The outcome for position `i` is still out. */
  ghost predicate InFlight(flight: Option<seq<Due>>, i: nat) {
    flight.Some? && exists m :: 0 <= m < |flight.value| && flight.value[m].index == i
  }

  /** The job may not run before its schedule's distance from trigger `t` has passed. */
  predicate Waits(j: Job, t: Trigger) {
    j.profileId == t.profileId ==> j.nextRun >= t.at + Gap(j.schedule)
  }

  ghost predicate Good(w: World) {
    && DistinctJobs(w.jobs) && Spaced(w.log)
    && (forall a :: 0 <= a < |w.log| ==> w.log[a].at <= w.now)
    && (forall i, a :: 0 <= i < |w.jobs| && 0 <= a < |w.log| ==> InFlight(w.flight, i) || Waits(w.jobs[i], w.log[a]))
    && (w.flight.Some? ==> forall l, m :: 0 <= l < m < |w.flight.value| ==>
          w.flight.value[l].index != w.flight.value[m].index)
  }

  lemma {:induction false} TriggersMean(jobs: seq<Job>, n: nat, at: nat)
    requires n <= |jobs| && DistinctJobs(jobs)
    ensures forall t :: t in Triggers(jobs, n, at) ==>
              exists i :: 0 <= i < n && jobs[i].IsDue(at) && t == Trigger(jobs[i].profileId, at, Gap(jobs[i].schedule))
    ensures forall a, b :: 0 <= a < b < |Triggers(jobs, n, at)| ==>
              Triggers(jobs, n, at)[a].profileId != Triggers(jobs, n, at)[b].profileId
  {
    if n > 0 {
      TriggersMean(jobs, n - 1, at);
      var before := Triggers(jobs, n - 1, at);
      assert forall a :: 0 <= a < |before| ==> before[a] in before;
    }
  }

  lemma CollectGood(w: World, at: nat)
    requires Good(w) && Possible(w, Collect(at))
    ensures Good(Next(w, Collect(at)))
  {
    var next := Next(w, Collect(at));
    var started := Triggers(w.jobs, |w.jobs|, at);
    TriggersMean(w.jobs, |w.jobs|, at);
    DueAmongMeans(w.jobs, |w.jobs|, at);
    assert forall a :: |w.log| <= a < |next.log| ==> next.log[a] in started;
    CollectSpaced(w, at);
    forall i, a | 0 <= i < |w.jobs| && 0 <= a < |next.log| && !InFlight(next.flight, i)
      ensures Waits(w.jobs[i], next.log[a])
    {
      assert !w.jobs[i].IsDue(at) by {
        if w.jobs[i].IsDue(at) {
          DueIsInFlight(w.jobs, at, i);
        }
      }
      if a >= |w.log| {
        assert next.log[a] in started;
      }
    }
  }

  lemma DueIsInFlight(jobs: seq<Job>, at: nat, i: nat)
    requires i < |jobs| && jobs[i].IsDue(at)
    ensures InFlight(Some(DueJobs(jobs, at)), i)
  {
    DueAmongMeans(jobs, |jobs|, at);
    var d := Due(i, jobs[i].profileId, jobs[i].url);
    assert d in DueJobs(jobs, at);
    var m :| 0 <= m < |DueJobs(jobs, at)| && DueJobs(jobs, at)[m] == d;
  }

  /** A due job waited long enough since every earlier trigger of its profile. */
  lemma CollectSpaced(w: World, at: nat)
    requires Good(w) && Possible(w, Collect(at))
    ensures Spaced(w.log + Triggers(w.jobs, |w.jobs|, at))
    ensures forall t :: t in Triggers(w.jobs, |w.jobs|, at) ==> t.at == at
  {
    var started := Triggers(w.jobs, |w.jobs|, at);
    var log := w.log + started;
    TriggersMean(w.jobs, |w.jobs|, at);
    forall a | |w.log| <= a < |log| ensures log[a].gap >= 60 {
      assert log[a] in started;
    }
    forall a, b | 0 <= a < |w.log| <= b < |log| && log[a].profileId == log[b].profileId
      ensures log[b].at >= log[a].at + log[b].gap
    {
      assert log[b] in started;
      var i :| 0 <= i < |w.jobs| && w.jobs[i].IsDue(at)
                  && log[b] == Trigger(w.jobs[i].profileId, at, Gap(w.jobs[i].schedule));
      assert Waits(w.jobs[i], w.log[a]);
    }
    forall a, b | |w.log| <= a < b < |log| ensures log[a].profileId != log[b].profileId {
      assert log[a] == started[a - |w.log|] && log[b] == started[b - |w.log|];
    }
  }

  lemma {:induction false} LoadedMeans(items: seq<Item>, now: nat)
    requires DistinctUids(items)
    ensures DistinctJobs(JobsFor(items, now))
    ensures forall j :: j in JobsFor(items, now) ==>
              && j.nextRun == now + j.schedule.NextRunSeconds()
              && exists i :: 0 <= i < |items| && items[i].uid == j.profileId
    decreases |items|
  {
    if items != [] {
      var n := |items| - 1;
      LoadedMeans(items[..n], now);
      var before := JobsFor(items[..n], now);
      forall j | j in before ensures exists i :: 0 <= i < n && items[i].uid == j.profileId {
        var i :| 0 <= i < n && items[..n][i].uid == j.profileId;
        assert items[i].uid == j.profileId;
      }
      assert forall i :: 0 <= i < |before| ==> before[i] in before;
    }
  }

  lemma ReloadGood(w: World, items: seq<Item>, at: nat)
    requires Good(w) && Possible(w, Reload(items, at))
    ensures Good(Next(w, Reload(items, at)))
  {
    LoadedMeans(items, at);
    var jobs := JobsFor(items, at);
    assert forall i :: 0 <= i < |jobs| ==> jobs[i] in jobs;
  }

  /** A marked job waits at least its schedule's distance from the time of the mark. */
  lemma MarkedWaits(j: Job, error: Option<string>, now: nat, t: Trigger)
    requires j.schedule.InRange() && t.at <= now
    ensures Waits(j.Marked(error, now), t)
  {
    BackoffAtLeastGap(j.schedule, j.failureCount + 1);
  }

  lemma ApplyGood(w: World, errors: seq<Option<string>>, times: seq<nat>)
    requires Good(w) && Possible(w, Apply(errors, times))
    ensures Good(Next(w, Apply(errors, times)))
  {
    AppliedKeepsIds(w.jobs, Attempts(w.flight.value, errors, times), |errors|);
    forall i, a | 0 <= i < |w.jobs| && 0 <= a < |w.log| ensures Waits(Next(w, Apply(errors, times)).jobs[i], w.log[a]) {
      ApplyWaits(w, errors, times, i, a);
    }
  }

  /** After the outcomes were applied, every job waits for every earlier trigger. */
  lemma ApplyWaits(w: World, errors: seq<Option<string>>, times: seq<nat>, i: nat, a: nat)
    requires Good(w) && Possible(w, Apply(errors, times))
    requires i < |w.jobs| && a < |w.log|
    ensures Waits(Next(w, Apply(errors, times)).jobs[i], w.log[a])
  {
    var attempts := Attempts(w.flight.value, errors, times);
    AppliedMeans(w.jobs, attempts, |attempts|);
    if InFlight(w.flight, i) {
      var m :| 0 <= m < |w.flight.value| && w.flight.value[m].index == i;
      assert attempts[m].index == i;
      MarkedWaits(w.jobs[i], attempts[m].error, times[m], w.log[a]);
    } else {
      assert forall m :: 0 <= m < |attempts| ==> attempts[m].index != i;
      assert Waits(w.jobs[i], w.log[a]);
    }
  }

  lemma {:induction false} RunGood(ticks: seq<Tick>)
    requires PossibleRun(ticks)
    ensures Good(After(ticks))
  {
    if ticks != [] {
      var w := After(ticks[..|ticks| - 1]);
      RunGood(ticks[..|ticks| - 1]);
      match ticks[|ticks| - 1]
      case Collect(at) => CollectGood(w, at);
      case Reload(items, at) => ReloadGood(w, items, at);
      case Apply(errors, times) => ApplyGood(w, errors, times);
    }
  }

  /**
    * Over every run, for every pattern of successes, failures and reloads, also reloads while an update
    * is under way: two triggers of one profile are at least the schedule's interval apart, or six hours
    * when that is shorter, and never less than a minute.
    */
  lemma TriggersAreSpaced(ticks: seq<Tick>, a: nat, b: nat)
    requires PossibleRun(ticks) && a < b < |After(ticks).log|
    requires After(ticks).log[a].profileId == After(ticks).log[b].profileId
    ensures After(ticks).log[b].at >= After(ticks).log[a].at + After(ticks).log[b].gap
    ensures After(ticks).log[b].gap >= 60
  {
    RunGood(ticks);
  }

  /**
    * One profile with a URL and an interval of `m` minutes, loaded at 0: it is triggered after that interval,
    * and again one interval after the update was done.
    */
  lemma OneProfileRun(uid: string, url: string, m: nat, finish: nat)
    requires 1 <= m <= 360 && 60 * m <= finish
    ensures var ticks := [Reload([Item(uid, Some(url), Some(m))], 0), Collect(60 * m), Apply([None], [finish]),
                          Collect(finish + 60 * m)];
            && PossibleRun(ticks)
            && After(ticks).log == [Trigger(uid, 60 * m, 60 * m), Trigger(uid, finish + 60 * m, 60 * m)]
  {
    var job := Job(uid, Some(url), Schedule(m), None, 60 * m, 0, None);
    var first := Trigger(uid, 60 * m, 60 * m);
    var t1 := LoadOne(uid, url, m);
    var t2 := CollectOne(t1, job, 60 * m, []);
    var t3 := ApplyOne(t2, job, finish, [first]);
    var t4 := CollectOne(t3, job.Marked(None, finish), finish + 60 * m, [first]);
    assert t4 == [Reload([Item(uid, Some(url), Some(m))], 0), Collect(60 * m), Apply([None], [finish]),
                  Collect(finish + 60 * m)];
  }

  lemma LoadOne(uid: string, url: string, m: nat) returns (ticks: seq<Tick>)
    requires 1 <= m <= 360
    ensures ticks == [Reload([Item(uid, Some(url), Some(m))], 0)] && PossibleRun(ticks)
    ensures After(ticks) == World([Job(uid, Some(url), Schedule(m), None, 60 * m, 0, None)], None, 0, [])
  {
    var load := Reload([Item(uid, Some(url), Some(m))], 0);
    OneLoaded(uid, Some(url), m, 0);
    RunTick([], load);
    ticks := [] + [load];
  }

  lemma ApplyOne(ticks: seq<Tick>, j: Job, at: nat, log: seq<Trigger>) returns (next: seq<Tick>)
    requires PossibleRun(ticks) && After(ticks) == World([j], Some([Due(0, j.profileId, j.url)]), After(ticks).now, log)
    requires j.url.Some? && After(ticks).now <= at
    ensures next == ticks + [Apply([None], [at])] && PossibleRun(next)
    ensures After(next) == World([j.Marked(None, at)], None, at, log)
  {
    AppliedToOne(j, None, at);
    RunTick(ticks, Apply([None], [at]));
    next := ticks + [Apply([None], [at])];
  }

  /** Collecting the only job of the table when it is due. */
  lemma CollectOne(ticks: seq<Tick>, j: Job, at: nat, log: seq<Trigger>) returns (next: seq<Tick>)
    requires PossibleRun(ticks) && After(ticks) == World([j], None, After(ticks).now, log)
    requires After(ticks).now <= at && j.IsDue(at)
    ensures next == ticks + [Collect(at)] && PossibleRun(next)
    ensures After(next)
         == World([j], Some([Due(0, j.profileId, j.url)]), at, log + [Trigger(j.profileId, at, Gap(j.schedule))])
  {
    OneJob(j, at);
    RunTick(ticks, Collect(at));
    next := ticks + [Collect(at)];
  }

  /** Every five minutes: triggered at 300, updated at 310, triggered again at 610. */
  lemma SampleRun()
    ensures var ticks := [Reload([Item("a", Some("u"), Some(5))], 0), Collect(300), Apply([None], [310]), Collect(610)];
            PossibleRun(ticks) && After(ticks).log == [Trigger("a", 300, 300), Trigger("a", 610, 300)]
  {
    OneProfileRun("a", "u", 5, 310);
  }

  /** One more tick of a run. */
  lemma RunTick(ticks: seq<Tick>, t: Tick)
    requires PossibleRun(ticks) && Possible(After(ticks), t)
    ensures PossibleRun(ticks + [t]) && After(ticks + [t]) == Next(After(ticks), t)
  {
    assert (ticks + [t])[..|ticks|] == ticks;
  }

  lemma OneLoaded(uid: string, url: Option<string>, minutes: nat, at: nat)
    requires 1 <= minutes <= 10080
    ensures JobsFor([Item(uid, url, Some(minutes))], at)
         == [Job(uid, url, Schedule(minutes), None, at + 60 * minutes, 0, None)]
  {
    assert [Item(uid, url, Some(minutes))][..0] == [];
  }

  lemma OneJob(j: Job, at: nat)
    requires j.IsDue(at)
    ensures DueJobs([j], at) == [Due(0, j.profileId, j.url)]
    ensures Triggers([j], 1, at) == [Trigger(j.profileId, at, Gap(j.schedule))]
  {
    assert DueAmong([j], 0, at) == [] && Triggers([j], 0, at) == [];
  }

  lemma AppliedToOne(j: Job, error: Option<string>, at: nat)
    requires j.url.Some?
    ensures Applied([j], Attempts([Due(0, j.profileId, j.url)], [error], [at]), 1) == [j.Marked(error, at)]
  {
    var attempts := Attempts([Due(0, j.profileId, j.url)], [error], [at]);
    assert attempts[0] == Attempt(0, j.profileId, error, at);
    assert Applied([j], attempts, 0) == [j];
  }
}
