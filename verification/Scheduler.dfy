/** Periodic profile updates: schedules, backoff, and the collect / run / apply protocol. */
module Scheduler {
  import opened Prelude

  const MAX_CRON_INTERVAL_MINS: nat := 10080
  const MAX_BACKOFF_SECS: nat := 6 * 60 * 60
  const I64_MAX: nat := 0x7fff_ffff_ffff_ffff

  datatype Schedule = Schedule(minutes: nat) {
    function NextRunSeconds(): nat {
      minutes * 60
    }

    predicate InRange() {
      1 <= minutes <= MAX_CRON_INTERVAL_MINS
    }
  }

  /** The schedule for a number of minutes; `None` for no number or one out of range. */
  function ParseSchedule(minutes: Option<nat>): (r: Option<Schedule>)
    ensures r.Some? <==> minutes.Some? && 1 <= minutes.value <= MAX_CRON_INTERVAL_MINS
    ensures r.Some? ==> r.value.InRange() && r.value.minutes == minutes.value
  {
    if minutes.None? || minutes.value < 1 || minutes.value > MAX_CRON_INTERVAL_MINS then None
    else Some(Schedule(minutes.value))
  }

  function Pow2(k: nat): nat {
    if k == 0 then 1 else 2 * Pow2(k - 1)
  }

  function Min(a: int, b: int): int {
    if a < b then a else b
  }

  /** Seconds until the next try after `failures` failures in a row. */
  function Backoff(s: Schedule, failures: nat): nat {
    Min(s.NextRunSeconds() * Pow2(if failures < 20 then failures else 20), MAX_BACKOFF_SECS)
  }

  /** The shortest time between two triggers of a job with this schedule. */
  function Gap(s: Schedule): nat {
    Min(s.NextRunSeconds(), MAX_BACKOFF_SECS)
  }

  // ----- Backoff arithmetic -----

  lemma {:induction false} Pow2Monotone(j: nat, k: nat)
    requires j <= k
    ensures 1 <= Pow2(j) <= Pow2(k)
    decreases k
  {
    if j < k {
      Pow2Monotone(j, k - 1);
    } else if k > 0 {
      Pow2Monotone(j - 1, k - 1);
    }
  }

  lemma Pow2Twenty()
    ensures Pow2(20) == 1_048_576
  {
    assert Pow2(5) == 32;
    assert Pow2(10) == 1024;
    assert Pow2(15) == 32_768;
  }

  lemma TimesMonotone(a: nat, x: nat, y: nat)
    requires x <= y
    ensures a * x <= a * y
  {}

  /** The exponent clamp at 20 is invisible: the delay is the capped doubling for every failure count. */
  lemma ClampInvisible(s: Schedule, failures: nat)
    requires s.InRange()
    ensures Backoff(s, failures) == Min(s.NextRunSeconds() * Pow2(failures), MAX_BACKOFF_SECS)
  {
    if failures > 20 {
      Pow2Monotone(20, failures);
      Pow2Twenty();
      TimesMonotone(s.NextRunSeconds(), Pow2(20), Pow2(failures));
      assert s.NextRunSeconds() * Pow2(20) >= MAX_BACKOFF_SECS;
    }
  }

  /** The product that the code computes before capping fits a signed 64-bit integer. */
  lemma NoOverflow(s: Schedule, failures: nat)
    requires s.InRange()
    ensures s.NextRunSeconds() * Pow2(if failures < 20 then failures else 20) <= I64_MAX
  {
    var k := if failures < 20 then failures else 20;
    Pow2Monotone(k, 20);
    Pow2Twenty();
    TimesMonotone(s.NextRunSeconds(), Pow2(k), Pow2(20));
  }

  /** More failures never shorten the delay. */
  lemma BackoffMonotone(s: Schedule, j: nat, k: nat)
    requires s.InRange() && j <= k
    ensures Backoff(s, j) <= Backoff(s, k)
  {
    ClampInvisible(s, j);
    ClampInvisible(s, k);
    Pow2Monotone(j, k);
    TimesMonotone(s.NextRunSeconds(), Pow2(j), Pow2(k));
  }

  /** A retry is never sooner than the schedule's minimum distance. */
  lemma BackoffAtLeastGap(s: Schedule, failures: nat)
    requires s.InRange()
    ensures Backoff(s, failures) >= Gap(s) >= 60
  {
    BackoffMonotone(s, 0, failures);
    assert s.NextRunSeconds() * Pow2(0) == s.NextRunSeconds();
  }

  /** A failing job is never tried earlier than a healthy one exactly for schedules of up to six hours. */
  lemma NeverEarlierIff(s: Schedule)
    requires s.InRange()
    ensures (forall k: nat :: k >= 1 ==> Backoff(s, k) >= s.NextRunSeconds()) <==> s.minutes <= 360
  {
    if s.minutes <= 360 {
      forall k: nat | k >= 1 ensures Backoff(s, k) >= s.NextRunSeconds() {
        BackoffAtLeastGap(s, k);
      }
    } else {
      assert Backoff(s, 1) <= MAX_BACKOFF_SECS < s.NextRunSeconds();
    }
  }

  // ----- Jobs -----

  datatype Job = Job(
    profileId: string, url: Option<string>, schedule: Schedule, lastRun: Option<nat>, nextRun: nat,
    failureCount: nat, lastError: Option<string>)
  {
    predicate IsDue(now: nat) {
      now >= nextRun
    }

    /** The job after an attempt that ended at `now`. */
    function Marked(error: Option<string>, now: nat): Job {
      match error
      case None => this.(lastError := None, failureCount := 0, lastRun := Some(now),
                         nextRun := now + schedule.NextRunSeconds())
      case Some(_) => this.(lastError := error, failureCount := failureCount + 1,
                            nextRun := now + Backoff(schedule, failureCount + 1))
    }
  }

  function NewJob(profileId: string, url: Option<string>, schedule: Schedule, now: nat): Job {
    Job(profileId, url, schedule, None, now + schedule.NextRunSeconds(), 0, None)
  }

  /** A profile as profiles.yaml lists it; `cron` is the number its cron text denotes, if any. */
  datatype Item = Item(uid: string, url: Option<string>, cron: Option<nat>)

  /** The jobs for a list of profiles, loaded at `now`. */
  function JobsFor(items: seq<Item>, now: nat): seq<Job> {
    if items == [] then []
    else
      var n := |items| - 1;
      var schedule := ParseSchedule(items[n].cron);
      JobsFor(items[..n], now)
      + (if schedule.Some? then [NewJob(items[n].uid, items[n].url, schedule.value, now)] else [])
  }

  /** A due job as it is handed to the update run: its position and profile. */
  datatype Due = Due(index: nat, profileId: string, url: Option<string>)

  /** The due jobs among the first `n`, in order. */
  function DueAmong(jobs: seq<Job>, n: nat, now: nat): seq<Due>
    requires n <= |jobs|
  {
    if n == 0 then []
    else DueAmong(jobs, n - 1, now)
         + (if jobs[n - 1].IsDue(now) then [Due(n - 1, jobs[n - 1].profileId, jobs[n - 1].url)] else [])
  }

  function DueJobs(jobs: seq<Job>, now: nat): seq<Due> {
    DueAmong(jobs, |jobs|, now)
  }

  /** The outcome of one attempt, to be applied at a position at a time. */
  datatype Attempt = Attempt(index: nat, profileId: string, error: Option<string>, at: nat)

  /** The attempts for a collection: a job without URL fails, the others as the environment says. */
  function Attempts(due: seq<Due>, errors: seq<Option<string>>, times: seq<nat>): (r: seq<Attempt>)
    requires |errors| == |due| && |times| == |due|
    ensures |r| == |due|
    ensures forall m :: 0 <= m < |r| ==>
            r[m].index == due[m].index && r[m].profileId == due[m].profileId && r[m].at == times[m]
  {
    seq(|due|, m requires 0 <= m < |due| =>
      Attempt(due[m].index, due[m].profileId,
              if due[m].url.None? then Some("No URL configured") else errors[m], times[m]))
  }

  /** The jobs after the first `n` attempts were applied; positions out of range are skipped. */
  function Applied(jobs: seq<Job>, attempts: seq<Attempt>, n: nat): (r: seq<Job>)
    requires n <= |attempts|
    ensures |r| == |jobs|
  {
    if n == 0 then jobs
    else
      var before := Applied(jobs, attempts, n - 1);
      var a := attempts[n - 1];
      if a.index < |jobs| then before[a.index := before[a.index].Marked(a.error, a.at)] else before
  }

  class ProfileCronJob {
    const profileId: string
    const url: Option<string>
    const schedule: Schedule
    var lastRun: Option<nat>
    var nextRun: nat
    var failureCount: nat
    var lastError: Option<string>

    constructor (profileId: string, url: Option<string>, schedule: Schedule, now: nat)
      ensures View() == NewJob(profileId, url, schedule, now)
    {
      this.profileId, this.url, this.schedule := profileId, url, schedule;
      nextRun := now + schedule.NextRunSeconds();
      lastRun, failureCount, lastError := None, 0, None;
    }

    function View(): Job
      reads this
    {
      Job(profileId, url, schedule, lastRun, nextRun, failureCount, lastError)
    }

    method MarkFailure(error: string, now: nat)
      modifies this
      ensures View() == old(View()).Marked(Some(error), now)
    {
      lastError := Some(error);
      failureCount := failureCount + 1;
      var base := schedule.NextRunSeconds();
      var backoff := base * Pow2(if failureCount < 20 then failureCount else 20);
      nextRun := now + Min(backoff, MAX_BACKOFF_SECS);
    }

    method MarkSuccess(now: nat)
      modifies this
      ensures View() == old(View()).Marked(None, now)
    {
      lastError := None;
      failureCount := 0;
      lastRun := Some(now);
      nextRun := now + schedule.NextRunSeconds();
    }
  }

  class CronTable {
    var jobs: seq<ProfileCronJob>

    constructor ()
      ensures jobs == []
    {
      jobs := [];
    }

    /** No job object is listed twice. */
    ghost predicate Valid()
      reads this
    {
      forall i, j :: 0 <= i < j < |jobs| ==> jobs[i] != jobs[j]
    }

    ghost function View(): (r: seq<Job>)
      reads this, jobs
      ensures |r| == |jobs| && forall i :: 0 <= i < |r| ==> r[i] == jobs[i].View()
    {
      seq(|jobs|, i requires 0 <= i < |jobs| reads this, jobs => jobs[i].View())
    }

    /** Replace all jobs by those of profiles.yaml; an absent or unreadable file changes nothing. */
    method LoadCronJobs(items: Option<seq<Item>>, now: nat)
      requires Valid()
      modifies this
      ensures Valid()
      ensures items.None? ==> jobs == old(jobs)
      ensures items.Some? ==> View() == JobsFor(items.value, now) && forall j :: j in jobs ==> fresh(j)
    {
      if items.None? {
        return;
      }
      jobs := [];
      for i := 0 to |items.value|
        invariant Valid() && (forall j :: j in jobs ==> fresh(j))
        invariant View() == JobsFor(items.value[..i], now)
      {
        assert items.value[..i + 1][..i] == items.value[..i];
        var schedule := ParseSchedule(items.value[i].cron);
        if schedule.Some? {
          ghost var before := View();
          var job := new ProfileCronJob(items.value[i].uid, items.value[i].url, schedule.value, now);
          jobs := jobs + [job];
          assert View() == before + [job.View()];
        }
      }
      assert items.value[..|items.value|] == items.value;
    }

    /** Copy out the due jobs while holding the lock. */
    method CollectDue(now: nat) returns (due: seq<Due>)
      ensures due == DueJobs(View(), now)
    {
      due := [];
      for i := 0 to |jobs|
        invariant due == DueAmong(View(), i, now)
      {
        if now >= jobs[i].nextRun {
          due := due + [Due(i, jobs[i].profileId, jobs[i].url)];
        }
      }
    }

    /** Record the outcomes under a second lock; the table may have been reloaded in between. */
    method ApplyResults(attempts: seq<Attempt>)
      requires Valid()
      modifies jobs
      ensures jobs == old(jobs) && View() == Applied(old(View()), attempts, |attempts|)
    {
      for n := 0 to |attempts|
        invariant jobs == old(jobs)
        invariant View() == Applied(old(View()), attempts, n)
      {
        var a := attempts[n];
        if a.index < |jobs| {
          ghost var before := View();
          var job := jobs[a.index];
          if a.error.None? {
            job.MarkSuccess(a.at);
          } else {
            job.MarkFailure(a.error.value, a.at);
          }
          assert View() == before[a.index := before[a.index].Marked(a.error, a.at)];
        }
      }
    }
  }

  // ----- One job over many attempts -----

  /** An attempt's outcome and the time it was recorded. */
  datatype Outcome = Outcome(error: Option<string>, at: nat)

  /** A job after a sequence of outcomes. */
  function AfterOutcomes(j: Job, outcomes: seq<Outcome>): Job {
    if outcomes == [] then j
    else
      var last := outcomes[|outcomes| - 1];
      AfterOutcomes(j, outcomes[..|outcomes| - 1]).Marked(last.error, last.at)
  }

  /** The length of the run of failures at the end. */
  function Streak(outcomes: seq<Outcome>): (n: nat)
    ensures n <= |outcomes|
    ensures n < |outcomes| ==> outcomes[|outcomes| - 1 - n].error.None?
    ensures forall i :: |outcomes| - n <= i < |outcomes| ==> outcomes[i].error.Some?
  {
    if outcomes == [] || outcomes[|outcomes| - 1].error.None? then 0
    else 1 + Streak(outcomes[..|outcomes| - 1])
  }

  /**
    * Exponential backoff over whole histories: a fresh job counts exactly the failures since its last
    * success and waits base * 2^count seconds after a failure, six hours at most, and base after a success.
    */
  lemma {:induction false} StreakDelay(j: Job, outcomes: seq<Outcome>)
    requires j.schedule.InRange() && j.failureCount == 0 && outcomes != []
    ensures var after := AfterOutcomes(j, outcomes);
            var last := outcomes[|outcomes| - 1];
            var base := j.schedule.NextRunSeconds();
            && after.failureCount == Streak(outcomes) && after.lastError == last.error
            && after.nextRun == last.at + Min(base * Pow2(Streak(outcomes)),
                                              if last.error.None? then base else MAX_BACKOFF_SECS)
            && after.profileId == j.profileId && after.schedule == j.schedule
            && (Streak(outcomes) < |outcomes| ==> after.lastRun == Some(outcomes[|outcomes| - 1 - Streak(outcomes)].at))
            && (forall now: nat :: after.IsDue(now) <==> now >= after.nextRun)
    decreases |outcomes|
  {
    var before := outcomes[..|outcomes| - 1];
    if before != [] {
      StreakDelay(j, before);
    }
    ClampInvisible(j.schedule, Streak(outcomes));
    assert j.schedule.NextRunSeconds() * Pow2(0) == j.schedule.NextRunSeconds();
  }

  // ----- Loading the table -----

  /** Positions of the profiles whose cron number is one of 1 to 10080 minutes, in order. */
  function Scheduled(items: seq<Item>): (r: seq<nat>)
    ensures forall q :: 0 <= q < |r| ==> r[q] < |items|
    decreases |items|
  {
    if items == [] then []
    else
      var n := |items| - 1;
      Scheduled(items[..n]) + (if items[n].cron.Some? && 1 <= items[n].cron.value <= 10080 then [n] else [])
  }

  /** Exactly those, each once. */
  lemma {:induction false} ScheduledMeans(items: seq<Item>, i: nat)
    requires i < |items|
    ensures i in Scheduled(items) <==> items[i].cron.Some? && 1 <= items[i].cron.value <= 10080
    ensures forall p, q :: 0 <= p < q < |Scheduled(items)| ==> Scheduled(items)[p] < Scheduled(items)[q]
    decreases |items|
  {
    var n := |items| - 1;
    if i < n {
      ScheduledMeans(items[..n], i);
      assert items[..n][i] == items[i];
    } else if n > 0 {
      ScheduledMeans(items[..n], 0);
      assert n !in Scheduled(items[..n]);
    }
  }

  lemma {:induction false} LoadedCount(items: seq<Item>, at: nat)
    ensures |JobsFor(items, at)| == |Scheduled(items)|
    decreases |items|
  {
    if items != [] {
      LoadedCount(items[..|items| - 1], at);
    }
  }

  /** The `q`-th job is that of the `q`-th profile with a valid cron number. */
  lemma {:induction false} LoadedJob(items: seq<Item>, at: nat, q: nat)
    requires q < |Scheduled(items)|
    ensures |JobsFor(items, at)| == |Scheduled(items)|
    ensures var item := items[Scheduled(items)[q]];
            && item.cron.Some?
            && JobsFor(items, at)[q]
               == Job(item.uid, item.url, Schedule(item.cron.value), None, at + 60 * item.cron.value, 0, None)
    decreases |items|
  {
    var n := |items| - 1;
    LoadedCount(items, at);
    LoadedCount(items[..n], at);
    if q < |Scheduled(items[..n])| {
      LoadedJob(items[..n], at, q);
      assert items[..n][Scheduled(items[..n])[q]] == items[Scheduled(items)[q]];
    }
  }

  /**
    * A load gives every profile with a valid cron number one job, in the order of the profiles, and no
    * other: it has the profile's uid and URL, has never run, and is due from that many minutes later on.
    */
  lemma LoadedExactly(items: seq<Item>, at: nat)
    ensures |JobsFor(items, at)| == |Scheduled(items)|
    ensures forall q :: 0 <= q < |Scheduled(items)| ==>
              var item := items[Scheduled(items)[q]];
              && item.cron.Some?
              && JobsFor(items, at)[q]
                 == Job(item.uid, item.url, Schedule(item.cron.value), None, at + 60 * item.cron.value, 0, None)
  {
    LoadedCount(items, at);
    forall q | 0 <= q < |Scheduled(items)|
      ensures items[Scheduled(items)[q]].cron.Some?
      ensures var item := items[Scheduled(items)[q]];
              JobsFor(items, at)[q]
                == Job(item.uid, item.url, Schedule(item.cron.value), None, at + 60 * item.cron.value, 0, None)
    {
      LoadedJob(items, at, q);
    }
  }

  /** A loaded job is due exactly from its number of minutes after the load on. */
  lemma LoadedDue(items: seq<Item>, at: nat, q: nat, now: nat)
    requires q < |Scheduled(items)|
    ensures q < |JobsFor(items, at)| && items[Scheduled(items)[q]].cron.Some?
    ensures JobsFor(items, at)[q].IsDue(now) <==> now >= at + 60 * items[Scheduled(items)[q]].cron.value
  {
    LoadedJob(items, at, q);
  }

  // ----- One collection and its application -----

  /** The collection holds each due job exactly once, in table order. */
  lemma {:induction false} DueAmongMeans(jobs: seq<Job>, n: nat, now: nat)
    requires n <= |jobs|
    ensures forall m :: 0 <= m < |DueAmong(jobs, n, now)| ==>
              var d := DueAmong(jobs, n, now)[m];
              && d.index < n && jobs[d.index].IsDue(now) && d.profileId == jobs[d.index].profileId
              && d.url == jobs[d.index].url
    ensures forall l, m :: 0 <= l < m < |DueAmong(jobs, n, now)| ==>
              DueAmong(jobs, n, now)[l].index < DueAmong(jobs, n, now)[m].index
    ensures forall i :: 0 <= i < n && jobs[i].IsDue(now) ==>
            Due(i, jobs[i].profileId, jobs[i].url) in DueAmong(jobs, n, now)
  {
    if n > 0 {
      DueAmongMeans(jobs, n - 1, now);
    }
  }

  /** Attempts at distinct positions: each position in range gets its own outcome once, all others keep their job. */
  lemma {:induction false} AppliedMeans(jobs: seq<Job>, attempts: seq<Attempt>, n: nat)
    requires n <= |attempts|
    requires forall l, m :: 0 <= l < m < |attempts| ==> attempts[l].index != attempts[m].index
    ensures forall m :: 0 <= m < n && attempts[m].index < |jobs| ==>
              Applied(jobs, attempts, n)[attempts[m].index]
                  == jobs[attempts[m].index].Marked(attempts[m].error, attempts[m].at)
    ensures forall i :: 0 <= i < |jobs| && (forall m :: 0 <= m < n ==> attempts[m].index != i) ==>
              Applied(jobs, attempts, n)[i] == jobs[i]
  {
    if n > 0 {
      AppliedMeans(jobs, attempts, n - 1);
      var a := attempts[n - 1];
      assert forall m :: 0 <= m < n - 1 ==> attempts[m].index != a.index;
    }
  }

  /**
    * Without a reload in between, every due job receives exactly its own outcome, once, and every
    * other job is unchanged.
    */
  lemma NoReloadExact(jobs: seq<Job>, now: nat, errors: seq<Option<string>>, times: seq<nat>)
    requires |errors| == |times| == |DueJobs(jobs, now)|
    ensures var due := DueJobs(jobs, now);
            var attempts := Attempts(due, errors, times);
            var after := Applied(jobs, attempts, |attempts|);
            && (forall m :: 0 <= m < |due| ==>
                  due[m].index < |jobs| && attempts[m].profileId == jobs[due[m].index].profileId
                  && after[due[m].index]
                     == jobs[due[m].index].Marked(if jobs[due[m].index].url.None? then Some("No URL configured")
                                                  else errors[m], times[m]))
            && (forall i :: 0 <= i < |jobs| && jobs[i].IsDue(now) ==> exists m :: 0 <= m < |due| && due[m].index == i)
            && (forall i :: 0 <= i < |jobs| && !jobs[i].IsDue(now) ==> after[i] == jobs[i])
  {
    var due := DueJobs(jobs, now);
    var attempts := Attempts(due, errors, times);
    DueAmongMeans(jobs, |jobs|, now);
    AppliedMeans(jobs, attempts, |attempts|);
    forall i | 0 <= i < |jobs| && jobs[i].IsDue(now) ensures exists m :: 0 <= m < |due| && due[m].index == i {
      assert Due(i, jobs[i].profileId, jobs[i].url) in due;
    }
  }

  /**
    * With a reload in between, the reloaded job of a profile shows that profile's own outcome if and only
    * if it stands at the position where the old job was collected, or at the position of another attempt
    * with the same error at the same time, which leaves the same mark. Positions that no attempt names are
    * unchanged.
    */
  lemma ReloadHitsIff(
    jobs: seq<Job>, items: seq<Item>, reloadedAt: nat, now: nat, errors: seq<Option<string>>, times: seq<nat>,
    m: nat, q: nat)
    requires |errors| == |times| == |DueJobs(jobs, now)| && m < |DueJobs(jobs, now)|
    requires q < |JobsFor(items, reloadedAt)|
    requires JobsFor(items, reloadedAt)[q].profileId == DueJobs(jobs, now)[m].profileId
    ensures var due := DueJobs(jobs, now);
            var attempts := Attempts(due, errors, times);
            var reloaded := JobsFor(items, reloadedAt);
            var after := Applied(reloaded, attempts, |attempts|);
            && (after[q] == reloaded[q].Marked(attempts[m].error, attempts[m].at)
                <==> exists l :: 0 <= l < |attempts| && due[l].index == q && SameMark(attempts[l], attempts[m]))
            && ((forall l :: 0 <= l < |attempts| && SameMark(attempts[l], attempts[m]) ==> l == m) ==>
                  (after[q] == reloaded[q].Marked(attempts[m].error, attempts[m].at) <==> q == due[m].index))
            && (forall j :: 0 <= j < |reloaded| && (forall l :: 0 <= l < |due| ==> due[l].index != j) ==>
                  after[j] == reloaded[j])
  {
    var due, reloaded := DueJobs(jobs, now), JobsFor(items, reloadedAt);
    var attempts := Attempts(due, errors, times);
    DueAmongMeans(jobs, |jobs|, now);
    AppliedMeans(reloaded, attempts, |attempts|);
    JobsForFresh(items, reloadedAt);
    MarkShowsIff(reloaded, attempts, m, q);
    assert SameMark(attempts[m], attempts[m]);
  }

  /** Two attempts that leave the same mark: the same error, recorded in the same second. */
  predicate SameMark(a: Attempt, b: Attempt) {
    a.error == b.error && a.at == b.at
  }

  /** A fresh job shows a mark exactly when an attempt at its position left it. */
  lemma MarkShowsIff(reloaded: seq<Job>, attempts: seq<Attempt>, m: nat, q: nat)
    requires m < |attempts| && q < |reloaded|
    requires reloaded[q].lastRun.None? && reloaded[q].failureCount == 0
    requires forall l, n :: 0 <= l < n < |attempts| ==> attempts[l].index != attempts[n].index
    ensures Applied(reloaded, attempts, |attempts|)[q] == reloaded[q].Marked(attempts[m].error, attempts[m].at)
       <==> exists l :: 0 <= l < |attempts| && attempts[l].index == q && SameMark(attempts[l], attempts[m])
  {
    AppliedMeans(reloaded, attempts, |attempts|);
    if l :| 0 <= l < |attempts| && attempts[l].index == q {
      MarkedInjective(reloaded[q], attempts[l].error, attempts[l].at, attempts[m].error, attempts[m].at);
    } else {
      assert Applied(reloaded, attempts, |attempts|)[q] == reloaded[q];
    }
  }

  /** Reloaded jobs have never run. */
  lemma {:induction false} JobsForFresh(items: seq<Item>, at: nat)
    ensures forall q :: 0 <= q < |JobsFor(items, at)| ==>
            JobsFor(items, at)[q].lastRun.None? && JobsFor(items, at)[q].failureCount == 0
  {
    if items != [] {
      JobsForFresh(items[..|items| - 1], at);
    }
  }

  /** A job tells from its fields what was last recorded in it. */
  lemma MarkedInjective(j: Job, e: Option<string>, at: nat, f: Option<string>, later: nat)
    ensures j.Marked(e, at) == j.Marked(f, later) <==> (e, at) == (f, later)
  {}

  /**
    * Which jobs an outcome can influence: with any table in place of the collected one, a different
    * outcome of attempt `m` shows at the position that it was collected from and nowhere else.
    */
  lemma OutcomeShowsIff(
    jobs: seq<Job>, reloaded: seq<Job>, now: nat, attempts: seq<Attempt>, m: nat,
    error: Option<string>, at: nat, q: nat)
    requires |attempts| == |DueJobs(jobs, now)| && m < |attempts| && q < |reloaded|
    requires forall l :: 0 <= l < |attempts| ==> attempts[l].index == DueJobs(jobs, now)[l].index
    requires (error, at) != (attempts[m].error, attempts[m].at)
    ensures var other := attempts[m := attempts[m].(error := error, at := at)];
            (Applied(reloaded, other, |other|)[q] != Applied(reloaded, attempts, |attempts|)[q]
             <==> q == DueJobs(jobs, now)[m].index)
  {
    var other := attempts[m := attempts[m].(error := error, at := at)];
    DueAmongMeans(jobs, |jobs|, now);
    AppliedMeans(reloaded, attempts, |attempts|);
    AppliedMeans(reloaded, other, |other|);
    if q == attempts[m].index {
      assert other[m].index == q;
      MarkedInjective(reloaded[q], error, at, attempts[m].error, attempts[m].at);
    } else if l :| 0 <= l < |attempts| && attempts[l].index == q {
      assert other[l] == attempts[l];
    } else {
      assert forall l :: 0 <= l < |other| ==> other[l].index == attempts[l].index;
    }
  }

  lemma {:induction false} AppliedKeepsIds(jobs: seq<Job>, attempts: seq<Attempt>, n: nat)
    requires n <= |attempts|
    ensures forall i :: 0 <= i < |jobs| ==> Applied(jobs, attempts, n)[i].profileId == jobs[i].profileId
                                            && Applied(jobs, attempts, n)[i].schedule == jobs[i].schedule
  {
    if n > 0 {
      AppliedKeepsIds(jobs, attempts, n - 1);
    }
  }

  /** Two profiles that change places during an update run: the failure of "a" is recorded for "b". */
  lemma SampleReloadHitsWrongJob()
    ensures var a := Job("a", Some("u"), Schedule(5), None, 100, 0, None);
            var b := Job("b", Some("v"), Schedule(5), None, 900, 0, None);
            var due := DueJobs([a, b], 200);
            && due == [Due(0, "a", Some("u"))]
            && Applied([b, a], Attempts(due, [Some("timeout")], [230]), 1)[0].failureCount == 1
            && Applied([b, a], Attempts(due, [Some("timeout")], [230]), 1)[1] == a
  {
    var a := Job("a", Some("u"), Schedule(5), None, 100, 0, None);
    var b := Job("b", Some("v"), Schedule(5), None, 900, 0, None);
    assert DueAmong([a, b], 1, 200) == [Due(0, "a", Some("u"))];
    assert DueAmong([a, b], 2, 200) == [Due(0, "a", Some("u"))];
    var attempts := Attempts(DueJobs([a, b], 200), [Some("timeout")], [230]);
    assert attempts[0] == Attempt(0, "a", Some("timeout"), 230);
    assert Applied([b, a], attempts, 0) == [b, a];
  }
}
