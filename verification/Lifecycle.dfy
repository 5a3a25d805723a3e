/** Starting, stopping and reporting on the proxy process. */
module Lifecycle {
  import opened Prelude
  import opened CircuitBreakers

  /** A spawned process; once exited it stays exited. */
  datatype Child = Child(pid: nat, exited: bool)

  datatype Manager = Manager(child: Option<Child>, configPath: Option<string>, breaker: Breaker) {
    predicate Running() {
      child.Some? && !child.value.exited
    }
  }

  /** What the environment decides during one start attempt. */
  datatype StartEnv = StartEnv(
    available: bool,       // the binary is there or can be downloaded
    configExists: bool,
    exeKnown: bool,        // the service's own location can be determined
    logOpens: bool,
    spawned: Option<nat>,  // process id, or a spawn error
    survives: bool,        // the process still runs after the short wait
    checkedAt: nat,        // when the breaker is asked
    finishedAt: nat,       // when success or failure is recorded
    wall: nat)             // wall-clock seconds after the attempt

  datatype StartResult = Started | Refused(remaining: nat) | Failed

  /** One start attempt: the manager, the result, and what the breaker was told. */
  function ManagerStart(m: Manager, path: string, env: StartEnv): (Manager, StartResult, seq<Event>) {
    var failed := m.(breaker := m.breaker.Failed(env.finishedAt));
    if m.Running() then (m.(breaker := CLOSED), Started, [Success])
    else if !m.breaker.Allowed(env.checkedAt) then (m, Refused(m.breaker.Remaining(env.checkedAt).GetOr(0)), [])
    else if !env.available || !env.configExists then (failed, Failed, [Failure(env.finishedAt)])
    else if !env.exeKnown then (failed.(child := None), Failed, [Failure(env.finishedAt)])
    else if !env.logOpens then (m, Failed, [])
    else if env.spawned.None? then (failed, Failed, [Failure(env.finishedAt)])
    else if env.survives then
      (Manager(Some(Child(env.spawned.value, false)), Some(path), CLOSED), Started, [Success])
    else (failed.(child := None, configPath := Some(path)), Failed, [Failure(env.finishedAt)])
  }

  class MihomoManager {
    var child: Option<Child>
    var configPath: Option<string>
    const breaker: CircuitBreaker

    constructor ()
      ensures View() == Manager(None, None, CLOSED) && fresh(breaker)
    {
      child, configPath := None, None;
      breaker := new CircuitBreaker();
    }

    function View(): Manager
      reads this, breaker
    {
      Manager(child, configPath, breaker.View())
    }

    predicate IsRunning()
      reads this
    {
      child.Some? && !child.value.exited
    }

    method Start(path: string, env: StartEnv) returns (r: StartResult)
      modifies this, breaker
      ensures View() == old(ManagerStart(View(), path, env).0)
      ensures r == old(ManagerStart(View(), path, env).1)
    {
      if IsRunning() {
        breaker.RecordSuccess();
        return Started;
      }
      var allowed := breaker.IsAllowed(env.checkedAt);
      if !allowed {
        var remaining := breaker.RemainingCooldownSecs(env.checkedAt);
        return Refused(remaining.GetOr(0));
      }
      if !env.available {
        breaker.RecordFailure(env.finishedAt);
        return Failed;
      }
      if !env.configExists {
        breaker.RecordFailure(env.finishedAt);
        return Failed;
      }
      if env.exeKnown {
        if !env.logOpens {
          return Failed;
        }
        if env.spawned.None? {
          breaker.RecordFailure(env.finishedAt);
          return Failed;
        }
        child := Some(Child(env.spawned.value, !env.survives));
        configPath := Some(path);
      }
      if !IsRunning() {
        child := None;
        breaker.RecordFailure(env.finishedAt);
        return Failed;
      }
      breaker.RecordSuccess();
      r := Started;
    }

    /** Kill the process; when killing fails nothing changes. */
    method Stop(killFails: bool) returns (ok: bool)
      modifies this
      ensures (View(), ok) == old(ManagerStop(View(), killFails))
    {
      if child.Some? {
        if killFails {
          return false;
        }
      }
      child := None;
      ok := true;
    }
  }

  function ManagerStop(m: Manager, killFails: bool): (Manager, bool) {
    if m.child.Some? && killFails then (m, false) else (m.(child := None), true)
  }

  /** The environment ends the process. */
  function ManagerExit(m: Manager): Manager {
    if m.child.Some? then m.(child := Some(m.child.value.(exited := true))) else m
  }

  // ----- The service around the manager -----

  datatype Service = Service(manager: Manager, startTime: Option<nat>, lastConfig: Option<string>)

  const FRESH := Service(Manager(None, None, CLOSED), None, None)

  /** What a caller or the environment does. */
  datatype Action =
    | StartWith(path: string, env: StartEnv)
    | Halt(killFails: bool)
    | Restart(killFails: bool, env: StartEnv)
    | RestartWith(path: string, killFails: bool, env: StartEnv)
    | ChildExits

  datatype Report = Report(
    running: bool, pid: Option<nat>, uptimeSecs: Option<nat>, state: string, configPath: Option<string>,
    remaining: Option<nat>)

  /** How a service call ended; `Missing` when there is no config path to restart with. */
  datatype Reply = Served | Error(cause: StartResult) | Missing | KillFailed

  function ServiceStart(s: Service, path: string, env: StartEnv): (Service, Reply, seq<Event>) {
    if s.manager.Running() then (s, Served, [])
    else
      var (m, r, told) := ManagerStart(s.manager, path, env);
      if r == Started then (Service(m, Some(env.wall), Some(path)), Served, told)
      else (s.(manager := m), Error(r), told)
  }

  function ServiceStop(s: Service, killFails: bool): (Service, Reply) {
    var (m, ok) := ManagerStop(s.manager, killFails);
    if ok then (s.(manager := m, startTime := None), Served) else (s, KillFailed)
  }

  /** The service after one action, the reply, and what the breaker was told. */
  function Act(s: Service, a: Action): (Service, Reply, seq<Event>) {
    match a
    case StartWith(path, env) => ServiceStart(s, path, env)
    case Halt(killFails) => (ServiceStop(s, killFails).0, ServiceStop(s, killFails).1, [])
    case Restart(killFails, env) =>
      if s.lastConfig.None? then (s, Missing, [])
      else ServiceStart(ServiceStop(s, killFails).0, s.lastConfig.value, env)
    case RestartWith(path, killFails, env) =>
      ServiceStart(ServiceStop(s.(lastConfig := Some(path)), killFails).0, path, env)
    case ChildExits => (s.(manager := ManagerExit(s.manager)), Served, [])
  }

  const U64: nat := 0x1_0000_0000_0000_0000

  /** The report at breaker time `now` and wall-clock second `wall`; the uptime subtraction wraps at 64 bits. */
  function StatusOf(s: Service, now: nat, wall: nat): Report {
    var running := s.manager.Running();
    var remaining := s.manager.breaker.Remaining(now);
    Report(running,
           if s.manager.child.Some? then Some(s.manager.child.value.pid) else None,
           if running && s.startTime.Some? then Some((wall - s.startTime.value) % U64) else None,
           if !running then "NotRunning" else if remaining.Some? then "CircuitBroken" else "Running",
           s.lastConfig,
           if running then remaining else None)
  }

  class ServiceState {
    const manager: MihomoManager
    var startTime: Option<nat>
    var lastConfigPath: Option<string>

    constructor ()
      ensures View() == FRESH && fresh(manager) && fresh(manager.breaker)
    {
      manager := new MihomoManager();
      startTime, lastConfigPath := None, None;
    }

    function View(): Service
      reads this, manager, manager.breaker
    {
      Service(manager.View(), startTime, lastConfigPath)
    }

    method Start(path: string, env: StartEnv) returns (r: Reply)
      modifies this, manager, manager.breaker
      ensures View() == old(ServiceStart(View(), path, env).0)
      ensures r == old(ServiceStart(View(), path, env).1)
    {
      if manager.IsRunning() {
        return Served;
      }
      var started := manager.Start(path, env);
      if started != Started {
        return Error(started);
      }
      startTime := Some(env.wall);
      lastConfigPath := Some(path);
      r := Served;
    }

    method Stop(killFails: bool) returns (r: Reply)
      modifies this, manager
      ensures (View(), r) == old(ServiceStop(View(), killFails))
    {
      var ok := manager.Stop(killFails);
      if !ok {
        return KillFailed;
      }
      startTime := None;
      r := Served;
    }

    method RestartMihomo(killFails: bool, env: StartEnv) returns (r: Reply)
      modifies this, manager, manager.breaker
      ensures View() == old(Act(View(), Restart(killFails, env)).0)
      ensures r == old(Act(View(), Restart(killFails, env)).1)
    {
      if lastConfigPath.None? {
        return Missing;
      }
      var path := lastConfigPath.value;
      var stopped := Stop(killFails);
      r := Start(path, env);
    }

    method RestartWithConfig(path: string, killFails: bool, env: StartEnv) returns (r: Reply)
      modifies this, manager, manager.breaker
      ensures View() == old(Act(View(), RestartWith(path, killFails, env)).0)
      ensures r == old(Act(View(), RestartWith(path, killFails, env)).1)
    {
      lastConfigPath := Some(path);
      var stopped := Stop(killFails);
      r := Start(path, env);
    }

    method Status(now: nat, wall: nat) returns (r: Report)
      ensures r == StatusOf(View(), now, wall)
    {
      var running := manager.IsRunning();
      var pid := if manager.child.Some? then Some(manager.child.value.pid) else None;
      var uptime: Option<nat> := None;
      if running && startTime.Some? {
        uptime := Some((wall - startTime.value) % U64);
      }
      var remaining := manager.breaker.RemainingCooldownSecs(now);
      var shown := if running then remaining else None;
      var state := if !running then "NotRunning" else if remaining.Some? then "CircuitBroken" else "Running";
      r := Report(running, pid, uptime, state, lastConfigPath, shown);
    }
  }

  // ----- What one start attempt means -----

  /** Nothing in the environment stands in the way of a start. */
  predicate Favourable(env: StartEnv) {
    env.available && env.configExists && env.exeKnown && env.logOpens && env.spawned.Some? && env.survives
  }

  /**
    * A start succeeds exactly when the process runs already, or the breaker and the environment let it;
    * afterwards the process runs exactly on success. Successes are reported to the breaker, refusals are
    * not, and a failure is reported once unless the log file could not be opened.
    */
  lemma StartOutcome(m: Manager, path: string, env: StartEnv)
    ensures var (after, r, told) := ManagerStart(m, path, env);
            && (r == Started <==> m.Running() || (m.breaker.Allowed(env.checkedAt) && Favourable(env)))
            && (r == Started <==> after.Running())
            && (r.Refused? <==> !m.Running() && !m.breaker.Allowed(env.checkedAt))
            && (r == Started <==> told == [Success])
            && (r.Refused? ==> told == [] && after == m)
            && (r == Failed && told == [] <==>
                  !m.Running() && m.breaker.Allowed(env.checkedAt)
                  && env.available && env.configExists && env.exeKnown && !env.logOpens)
            && (r == Failed && told != [] ==> told == [Failure(env.finishedAt)])
  {}

  /**
    * A stop is served exactly when there is no process or it can be killed. Then there is no process and
    * no start time; otherwise nothing has changed. The breaker and the config path stay either way.
    */
  lemma StopOutcome(s: Service, killFails: bool)
    ensures var (after, reply, told) := Act(s, Halt(killFails));
            && (reply == Served <==> s.manager.child.None? || !killFails)
            && (reply == Served ==>
                  && after.manager.child.None? && !after.manager.Running() && after.startTime.None?
                  && after.lastConfig == s.lastConfig && after.manager.configPath == s.manager.configPath
                  && after.manager.breaker == s.manager.breaker)
            && (reply != Served ==> reply == KillFailed && after == s)
            && told == []
  {}

  /**
    * A start that brings up a process: the process id is the spawned one, the config paths are the given
    * one, and the start time is that of the attempt. A start that fails leaves start time and config alone.
    */
  lemma StartEffect(s: Service, path: string, env: StartEnv)
    requires !s.manager.Running()
    ensures var (after, reply, told) := Act(s, StartWith(path, env));
            && (reply == Served ==>
                  && env.spawned.Some? && after.manager.child == Some(Child(env.spawned.value, false))
                  && after.manager.configPath == Some(path) && after.lastConfig == Some(path)
                  && after.startTime == Some(env.wall))
            && (reply != Served ==>
                  reply.Error? && after.startTime == s.startTime && after.lastConfig == s.lastConfig
                  && !after.manager.Running())
            && (reply == Served <==> s.manager.breaker.Allowed(env.checkedAt) && Favourable(env))
  {}

  /**
    * What a failed start leaves of the process before: a process that died at once, or a service that cannot
    * find itself, leaves none, so that the report shows no process id; any earlier failure leaves the old
    * one. The manager's config path changes only when a process was spawned.
    */
  lemma FailedStart(s: Service, path: string, env: StartEnv, now: nat, wall: nat)
    requires !s.manager.Running() && s.manager.breaker.Allowed(env.checkedAt) && !Favourable(env)
    ensures var (after, reply, told) := Act(s, StartWith(path, env));
            var reached := env.available && env.configExists;
            var died := reached && env.exeKnown && env.logOpens && env.spawned.Some?;
            && reply == Error(Failed)
            && (died || (reached && !env.exeKnown) ==>
                  after.manager.child.None? && StatusOf(after, now, wall).pid.None?)
            && (!died && !(reached && !env.exeKnown) ==> after.manager.child == s.manager.child)
            && after.manager.configPath == (if died then Some(path) else s.manager.configPath)
  {}

  /** A start of a running service, in any environment, changes nothing. */
  lemma StartOfRunning(s: Service, path: string, env: StartEnv)
    requires s.manager.Running()
    ensures Act(s, StartWith(path, env)) == (s, Served, [])
  {}

  /**
    * A restart whose kill works, in a favourable environment and with the breaker closed, replaces the
    * process by the spawned one: on the last config, or on the given one.
    */
  lemma RestartReplaces(s: Service, path: string, env: StartEnv)
    requires Favourable(env) && s.manager.breaker.Allowed(env.checkedAt)
    ensures s.lastConfig.Some? ==>
              var (after, reply, told) := Act(s, Restart(false, env));
              && reply == Served && after.manager.child == Some(Child(env.spawned.value, false))
              && after.startTime == Some(env.wall)
              && after.lastConfig == s.lastConfig && after.manager.configPath == s.lastConfig
    ensures s.lastConfig.None? ==> Act(s, Restart(false, env)) == (s, Missing, [])
    ensures var (after, reply, told) := Act(s, RestartWith(path, false, env));
            && reply == Served && after.manager.child == Some(Child(env.spawned.value, false))
            && after.startTime == Some(env.wall)
            && after.lastConfig == Some(path) && after.manager.configPath == Some(path)
  {}

  /**
    * A restart whose kill fails keeps a running process: it is served without a new one. With another
    * config given, that one is remembered although the old process never read it.
    */
  lemma RestartWithoutKill(s: Service, path: string, env: StartEnv)
    requires s.manager.Running()
    ensures s.lastConfig.Some? ==> Act(s, Restart(true, env)) == (s, Served, [])
    ensures Act(s, RestartWith(path, true, env)) == (s.(lastConfig := Some(path)), Served, [])
  {}

  /** What the report says of a process: its id until it is stopped, and whether it runs. */
  lemma ReportShows(s: Service, now: nat, wall: nat)
    ensures var r := StatusOf(s, now, wall);
            && (r.pid.Some? <==> s.manager.child.Some?) && (r.pid.Some? ==> r.pid.value == s.manager.child.value.pid)
            && r.configPath == s.lastConfig
            && (r.running <==> s.manager.child.Some? && !s.manager.child.value.exited)
    ensures var gone := StatusOf(Act(s, ChildExits).0, now, wall);
            !gone.running && gone.pid == StatusOf(s, now, wall).pid && gone.configPath == s.lastConfig
  {}

  // ----- What every run keeps -----

  /** The service after a run of actions. */
  function RunActions(actions: seq<Action>): Service {
    if actions == [] then FRESH else Act(RunActions(actions[..|actions| - 1]), actions[|actions| - 1]).0
  }

  /** Everything the breaker was told during a run. */
  function Told(actions: seq<Action>): seq<Event> {
    if actions == [] then []
    else
      var n := |actions| - 1;
      Told(actions[..n]) + Act(RunActions(actions[..n]), actions[n]).2
  }

  /** The service state reflects its history, and a running process means a closed breaker and a start time. */
  ghost predicate Consistent(s: Service, told: seq<Event>) {
    && s.manager.breaker == After(told)
    && (s.manager.Running() ==> s.manager.breaker == CLOSED && s.startTime.Some? && s.lastConfig.Some?)
  }

  lemma AfterOne(told: seq<Event>, e: Event)
    ensures After(told + [e]) == match e case Failure(at) => After(told).Failed(at) case Success => CLOSED
    ensures After(told + []) == After(told)
  {
    assert (told + [e])[..|told|] == told;
    assert told + [] == told;
  }

  lemma ActConsistent(s: Service, told: seq<Event>, a: Action)
    requires Consistent(s, told)
    ensures Consistent(Act(s, a).0, told + Act(s, a).2)
  {
    var events := Act(s, a).2;
    if events == [] {
      assert told + events == told;
    } else {
      assert events == [events[0]];
      AfterOne(told, events[0]);
    }
  }

  lemma {:induction false} RunConsistent(actions: seq<Action>)
    ensures Consistent(RunActions(actions), Told(actions))
  {
    if actions != [] {
      var n := |actions| - 1;
      RunConsistent(actions[..n]);
      ActConsistent(RunActions(actions[..n]), Told(actions[..n]), actions[n]);
    }
  }

  /** Some run of actions leads to the service `s` and tells the breaker `told`. */
  ghost predicate Reachable(s: Service, told: seq<Event>) {
    exists actions :: s == RunActions(actions) && told == Told(actions)
  }

  lemma ReachableConsistent(s: Service, told: seq<Event>)
    requires Reachable(s, told)
    ensures Consistent(s, told)
  {
    var actions :| s == RunActions(actions) && told == Told(actions);
    RunConsistent(actions);
  }

  /** In every reachable state a running process has a closed breaker. */
  lemma RunningImpliesClosed(s: Service, told: seq<Event>)
    requires Reachable(s, told) && s.manager.Running()
    ensures s.manager.breaker == CLOSED && Recent(told) == []
  {
    ReachableConsistent(s, told);
    StateIsHistory(told);
  }

  /**
    * The status report never says "CircuitBroken" and never shows a remaining cooldown; it shows an
    * uptime exactly when the process runs, and that is the time since the start.
    */
  lemma StatusNeverBroken(s: Service, told: seq<Event>, now: nat, wall: nat)
    requires Reachable(s, told)
    ensures var r := StatusOf(s, now, wall);
            && r.state != "CircuitBroken" && r.remaining.None?
            && (r.state == "Running" <==> r.running) && (r.uptimeSecs.Some? <==> r.running)
            && (r.running && s.startTime.value <= wall < U64 ==> r.uptimeSecs == Some(wall - s.startTime.value))
  {
    ReachableConsistent(s, told);
    assert |"NotRunning"| == 10 && |"CircuitBroken"| == 13 && |"Running"| == 7;
  }

  /** Although the breaker is open the report hides it: it says "NotRunning" with no cooldown. */
  lemma OpenBreakerIsHidden(s: Service, told: seq<Event>, now: nat, wall: nat)
    requires Reachable(s, told) && !Admits(told, now)
    ensures StatusOf(s, now, wall).state == "NotRunning" && StatusOf(s, now, wall).remaining.None?
    ensures s.manager.breaker.Remaining(now).Some?
  {
    ReachableConsistent(s, told);
    StateIsHistory(told);
  }

  /** A start of a stopped service is refused exactly when the run's history does not admit it. */
  lemma StartRefusedIff(s: Service, told: seq<Event>, path: string, env: StartEnv)
    requires Reachable(s, told) && !s.manager.Running()
    ensures var reply := Act(s, StartWith(path, env)).1;
            (reply.Error? && reply.cause.Refused?) <==> !Admits(told, env.checkedAt)
  {
    ReachableConsistent(s, told);
    AllowedIffHistoryAdmits(told, env.checkedAt);
  }

  /** Restarting a running service is never refused by the breaker, whether or not the old process dies. */
  lemma RestartOfRunningNotRefused(s: Service, told: seq<Event>, killFails: bool, env: StartEnv)
    requires Reachable(s, told) && s.manager.Running()
    ensures var reply := Act(s, Restart(killFails, env)).1;
            reply != Missing && !(reply.Error? && reply.cause.Refused?)
  {
    ReachableConsistent(s, told);
  }
}
