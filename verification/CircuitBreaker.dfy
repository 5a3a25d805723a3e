/** The circuit breaker that limits start attempts, and its meaning in terms of the full history. */
module CircuitBreakers {
  import opened Prelude

  const NANOS_PER_SEC: nat := 1_000_000_000
  const MAX_FAILURES: nat := 3
  const COOLDOWN: nat := 60 * NANOS_PER_SEC

  /** The fields of a breaker; times are nanoseconds on one clock. */
  datatype Breaker = Breaker(failureCount: nat, isBroken: bool, brokenAt: Option<nat>) {
    /** A start at time `now` is let through. */
    predicate Allowed(now: nat) {
      !isBroken || (brokenAt.Some? && Elapsed(brokenAt.value, now) >= COOLDOWN)
    }

    /** Whole seconds until starts are let through again. */
    function Remaining(now: nat): Option<nat> {
      if !isBroken || brokenAt.None? || Elapsed(brokenAt.value, now) >= COOLDOWN then None
      else Some((COOLDOWN - Elapsed(brokenAt.value, now)) / NANOS_PER_SEC)
    }

    /** The breaker is holding starts back right now. */
    predicate CircuitBroken(now: nat) {
      isBroken && Remaining(now).Some?
    }

    function Failed(now: nat): Breaker {
      if isBroken then this
      else if failureCount + 1 >= MAX_FAILURES then Breaker(failureCount + 1, true, Some(now))
      else Breaker(failureCount + 1, false, brokenAt)
    }
  }

  const CLOSED := Breaker(0, false, None)

  /** Time passed since `start`; zero when the clock has not reached it. */
  function Elapsed(start: nat, now: nat): nat {
    if now >= start then now - start else 0
  }

  class CircuitBreaker {
    var failureCount: nat
    var isBroken: bool
    var brokenAt: Option<nat>

    constructor ()
      ensures View() == CLOSED
    {
      failureCount, isBroken, brokenAt := 0, false, None;
    }

    function View(): Breaker
      reads this
    {
      Breaker(failureCount, isBroken, brokenAt)
    }

    method IsAllowed(now: nat) returns (r: bool)
      ensures r == View().Allowed(now)
    {
      if !isBroken {
        return true;
      }
      if brokenAt.Some? {
        if Elapsed(brokenAt.value, now) >= COOLDOWN {
          return true;
        }
      }
      r := false;
    }

    method RecordFailure(now: nat)
      modifies this
      ensures View() == old(View()).Failed(now)
    {
      if isBroken {
        return;
      }
      failureCount := failureCount + 1;
      if failureCount >= MAX_FAILURES {
        isBroken := true;
        brokenAt := Some(now);
      }
    }

    method RecordSuccess()
      modifies this
      ensures View() == CLOSED
    {
      failureCount := 0;
      isBroken := false;
      brokenAt := None;
    }

    method RemainingCooldownSecs(now: nat) returns (r: Option<nat>)
      ensures r == View().Remaining(now)
    {
      if !isBroken {
        return None;
      }
      if brokenAt.Some? {
        var elapsed := Elapsed(brokenAt.value, now);
        if elapsed >= COOLDOWN {
          return None;
        }
        r := Some((COOLDOWN - elapsed) / NANOS_PER_SEC);
      } else {
        r := None;
      }
    }
  }

  // ----- The full history -----

  /** Something the breaker was told. */
  datatype Event = Failure(at: nat) | Success

  /** The breaker after a history, oldest event first. */
  function After(history: seq<Event>): Breaker {
    if history == [] then CLOSED
    else
      match history[|history| - 1]
      case Failure(at) => After(history[..|history| - 1]).Failed(at)
      case Success => CLOSED
  }

  /** Number of events up to and including the last success. */
  function Settled(history: seq<Event>): (n: nat)
    ensures n <= |history|
    ensures forall i :: n <= i < |history| ==> history[i].Failure?
    ensures n > 0 ==> history[n - 1].Success?
  {
    if history == [] then 0
    else if history[|history| - 1].Success? then |history|
    else Settled(history[..|history| - 1])
  }

  /** The failures since the last success, oldest first. */
  function Recent(history: seq<Event>): seq<Event> {
    history[Settled(history)..]
  }

  /**
    * The history lets a start through: fewer than three failures since the last success, or a minute
    * since the third.
    */
  predicate Admits(history: seq<Event>, now: nat) {
    var recent := Recent(history);
    |recent| < MAX_FAILURES || now >= recent[MAX_FAILURES - 1].at + COOLDOWN
  }

  /**
    * The three fields are exactly what the history dictates: closed with the number of failures since
    * the last success, or broken since the third of them. The count never exceeds three.
    */
  lemma {:induction false} StateIsHistory(history: seq<Event>)
    ensures var recent := Recent(history);
            After(history) == if |recent| < MAX_FAILURES then Breaker(|recent|, false, None)
                              else Breaker(MAX_FAILURES, true, Some(recent[MAX_FAILURES - 1].at))
  {
    if history != [] {
      var before := history[..|history| - 1];
      StateIsHistory(before);
      if history[|history| - 1].Failure? {
        assert Recent(history) == Recent(before) + [history[|history| - 1]];
      } else {
        assert Recent(history) == [];
      }
    }
  }

  /** The breaker decides every start as the full history would. */
  lemma AllowedIffHistoryAdmits(history: seq<Event>, now: nat)
    ensures After(history).Allowed(now) <==> Admits(history, now)
  {
    StateIsHistory(history);
  }

  /** In numbers: the third failure since the last success holds starts back for 60 seconds, and no earlier one does. */
  lemma ThirdFailureCostsAMinute(history: seq<Event>, now: nat)
    ensures After(history).Allowed(now)
       <==> |Recent(history)| < 3 || now >= Recent(history)[2].at + 60_000_000_000
  {
    AllowedIffHistoryAdmits(history, now);
  }

  /** In every reachable state broken, three failures and a recorded time go together, and the three queries agree. */
  lemma ReachableAgrees(history: seq<Event>, now: nat)
    ensures var b := After(history);
            && (b.isBroken <==> b.failureCount == MAX_FAILURES) && (b.isBroken <==> b.brokenAt.Some?)
            && (b.Allowed(now) <==> b.Remaining(now).None?) && (b.CircuitBroken(now) <==> !b.Allowed(now))
  {
    StateIsHistory(history);
  }

  /**
    * For any fields at all: "allowed" and "nothing remaining" agree unless the breaker is broken with no
    * time recorded.
    */
  lemma QueriesAgreeIff(b: Breaker)
    ensures (forall now :: b.Allowed(now) <==> b.Remaining(now).None?) <==> !(b.isBroken && b.brokenAt.None?)
  {
    if b.isBroken && b.brokenAt.None? {
      assert !b.Allowed(0) && b.Remaining(0).None?;
    }
  }

  /** The reported seconds are rounded down: the wait still to go is at least that and less than a second more. */
  lemma RemainingIsRoundedDown(history: seq<Event>, now: nat)
    requires After(history).Remaining(now).Some?
    ensures var recent := Recent(history);
            var r := After(history).Remaining(now).value;
            && |recent| >= MAX_FAILURES && r <= 60
            && (now >= recent[2].at ==>
                  var wait := recent[2].at + COOLDOWN - now;
                  0 < wait && r * 1_000_000_000 <= wait < (r + 1) * 1_000_000_000)
            && (now < recent[2].at ==> r == 60)
  {
    StateIsHistory(history);
  }

  /**
    * There is one cooldown per losing streak: once a start is let through again, every later start is
    * too, however many further failures are recorded, until a success.
    */
  lemma {:induction false} OneCooldownPerStreak(history: seq<Event>, more: seq<Event>, now: nat, later: nat)
    requires |Recent(history)| >= MAX_FAILURES && Admits(history, now) && now <= later
    requires forall e :: e in more ==> e.Failure?
    ensures After(history + more).Allowed(later) && After(history + more) == After(history)
  {
    if more == [] {
      assert history + more == history;
      AllowedIffHistoryAdmits(history, later);
    } else {
      var n := |more| - 1;
      OneCooldownPerStreak(history, more[..n], now, later);
      assert (history + more)[..|history| + n] == history + more[..n];
      assert more[n] in more;
      StateIsHistory(history);
    }
  }
}
