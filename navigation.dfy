/**
  * Page navigation of the enhanced engine (src/core/navigation.py): a table of wait
  * strategies tried round by round until one `page.goto` succeeds, with backoff sleeps
  * between attempts and pauses between rounds, then one last minimal fallback; and the
  * content-readiness script waited on after a successful navigation.
  */
module Navigation {
  import opened Common
  import opened Dom
  import opened Engine

  /** One row of the strategy table: the wait condition, the factor applied to the request
      timeout, and the settle wait after a successful goto (ms). */
  datatype Strategy = Strategy(waitUntil: WaitUntil, multiplier: real, settleWait: int)

  const BaseStrategies: seq<Strategy> := [
    Strategy(DomContentLoaded, 1.0, 2000),
    Strategy(NetworkIdle, 1.2, 3000),
    Strategy(Load, 1.0, 4000),
    Strategy(Commit, 0.8, 5000)
  ]

  /** The more patient strategies aggressive mode appends. */
  const AggressiveStrategies: seq<Strategy> := [
    Strategy(NetworkIdle, 2.0, 8000),
    Strategy(DomContentLoaded, 2.5, 10000)
  ]

  /** The request flags navigation reads: aggressive_wait, smart_wait, wait_for_network_idle. */
  datatype NavFlags = NavFlags(aggressive: bool, smartWait: bool, waitForNetworkIdle: bool)

  function Strategies(aggressive: bool): (table: seq<Strategy>)
    ensures |table| == if aggressive then 6 else 4
  {
    if aggressive then BaseStrategies + AggressiveStrategies else BaseStrategies
  }

  function MaxRetries(aggressive: bool): (rounds: nat)
    ensures rounds >= 2
  {
    if aggressive then 3 else 2
  }

  /** The timeout of one attempt: the scaled request timeout in the first round, and 70% of
      it, but never more than 20 s, in the later rounds. */
  function AttemptTimeout(timeout: int, round: nat, s: Strategy): (t: real)
    ensures round == 0 ==> t == timeout as real * s.multiplier
    ensures round > 0 ==> t <= 20000.0 && t <= timeout as real * s.multiplier * 0.7
  {
    var base := timeout as real * s.multiplier;
    if round == 0 then base else RMin(base * 0.7, 20000.0)
  }

  /** The sleep after a failed attempt with the strategy at `idx`, in seconds. */
  function StrategyBackoff(idx: nat): (seconds: real)
    ensures 1.0 <= seconds <= 3.0
    ensures idx >= 4 ==> seconds == 3.0
  {
    RMin(1.0 + idx as real * 0.5, 3.0)
  }

  /** The pause after a whole round failed, in seconds. */
  function RoundPause(round: nat): (seconds: real)
    ensures round == 0 ==> seconds == 2.0
    ensures round > 0 ==> seconds == RoundPause(round - 1) + 2.0
    ensures seconds >= 2.0
  {
    (2 + round * 2) as real
  }

  const FallbackAttempt: Attempt := Attempt(Some(Commit), 15000.0)

  /** What follows a successful goto: the strategy's settle wait, the readiness wait when
      smart waiting is on, and the network-idle confirmation unless the goto already waited
      for network idle. */
  function AfterSuccess(s: Strategy, flags: NavFlags): (waits: seq<Event>)
    ensures forall i :: 0 <= i < |waits| ==> !waits[i].Goto? && !waits[i].Sleep?
    ensures ReadinessWait(8000) in waits <==> flags.smartWait
    ensures NetworkIdleWait(5000) in waits <==> flags.waitForNetworkIdle && s.waitUntil != NetworkIdle
  {
    (if s.settleWait > 0 then [PageWait(s.settleWait)] else [])
    + (if flags.smartWait then [ReadinessWait(8000)] else [])
    + (if flags.waitForNetworkIdle && s.waitUntil != NetworkIdle then [NetworkIdleWait(5000)] else [])
  }

  /** The pause after round `round`, none after the last one. */
  function AfterRound(round: nat, rounds: nat): (pause: seq<Event>)
    ensures pause == [] <==> round + 1 >= rounds
    ensures pause != [] ==> pause == [Sleep(RoundPause(round))]
  {
    if round + 1 < rounds then [Sleep(RoundPause(round))] else []
  }

  /** A navigation: what it returns (the response, possibly None, or the error it raises)
      and what it did. */
  datatype Run = Run(result: Result<Option<Response>, string>, trace: seq<Event>)

  function Prepend(events: seq<Event>, run: Run): Run
  {
    Run(run.result, events + run.trace)
  }

  /** The last minimal attempt, the `k`-th goto call. */
  function Fallback(flags: NavFlags, goto: nat -> GotoResult, k: nat): Run
  {
    match goto(k)
    case Navigated(response) =>
      Run(Ok(response), [Goto(FallbackAttempt), PageWait(8000)] + (if flags.smartWait then [ReadinessWait(10000)] else []))
    case GotoFailed(message) => Run(Err(message), [Goto(FallbackAttempt)])
  }

  predicate AtPosition(aggressive: bool, round: nat, idx: nat)
  {
    && round <= MaxRetries(aggressive)
    && (round < MaxRetries(aggressive) ==> idx < |Strategies(aggressive)|)
    && (round == MaxRetries(aggressive) ==> idx == 0)
  }

  /** The navigation from strategy `idx` of round `round` on (the round past the last one is
      the fallback), `k` goto calls having been made. */
  function RunFrom(timeout: int, flags: NavFlags, goto: nat -> GotoResult, round: nat, idx: nat, k: nat): Run
    requires AtPosition(flags.aggressive, round, idx)
    decreases MaxRetries(flags.aggressive) - round, |Strategies(flags.aggressive)| - idx
  {
    var table, rounds := Strategies(flags.aggressive), MaxRetries(flags.aggressive);
    if round == rounds then Fallback(flags, goto, k)
    else
      var s := table[idx];
      var attempt := Attempt(Some(s.waitUntil), AttemptTimeout(timeout, round, s));
      match goto(k)
      case Navigated(response) => Run(Ok(response), [Goto(attempt)] + AfterSuccess(s, flags))
      case GotoFailed(_) =>
        var failed := [Goto(attempt), Sleep(StrategyBackoff(idx))];
        if idx + 1 < |table| then Prepend(failed, RunFrom(timeout, flags, goto, round, idx + 1, k + 1))
        else Prepend(failed + AfterRound(round, rounds), RunFrom(timeout, flags, goto, round + 1, 0, k + 1))
  }

  /** navigate_with_retries for a request timeout and flags, `goto(k)` answering the k-th call. */
  function Navigate(timeout: int, flags: NavFlags, goto: nat -> GotoResult): Run
  {
    RunFrom(timeout, flags, goto, 0, 0, 0)
  }

  /** One step of navigation, unfolded: a goto at (`round`, `idx`) that succeeds ends it. */
  lemma SuccessStep(timeout: int, flags: NavFlags, goto: nat -> GotoResult, round: nat, idx: nat, k: nat)
    requires round < MaxRetries(flags.aggressive) && idx < |Strategies(flags.aggressive)|
    requires goto(k).Navigated?
    ensures var s := Strategies(flags.aggressive)[idx];
      RunFrom(timeout, flags, goto, round, idx, k)
      == Run(Ok(goto(k).response), [Goto(Attempt(Some(s.waitUntil), AttemptTimeout(timeout, round, s)))] + AfterSuccess(s, flags))
  {
  }

  /** A goto that fails hands over to the next strategy, or to the next round after the
      round pause. */
  lemma FailureStep(timeout: int, flags: NavFlags, goto: nat -> GotoResult, round: nat, idx: nat, k: nat)
    requires round < MaxRetries(flags.aggressive) && idx < |Strategies(flags.aggressive)|
    requires goto(k).GotoFailed?
    ensures var s := Strategies(flags.aggressive)[idx];
      var failed := [Goto(Attempt(Some(s.waitUntil), AttemptTimeout(timeout, round, s))), Sleep(StrategyBackoff(idx))];
      && (idx + 1 < |Strategies(flags.aggressive)| ==>
            RunFrom(timeout, flags, goto, round, idx, k) == Prepend(failed, RunFrom(timeout, flags, goto, round, idx + 1, k + 1)))
      && (idx + 1 == |Strategies(flags.aggressive)| ==>
            RunFrom(timeout, flags, goto, round, idx, k)
            == Prepend(failed + AfterRound(round, MaxRetries(flags.aggressive)), RunFrom(timeout, flags, goto, round + 1, 0, k + 1)))
  {
  }

  lemma FallbackStep(timeout: int, flags: NavFlags, goto: nat -> GotoResult, k: nat)
    ensures RunFrom(timeout, flags, goto, MaxRetries(flags.aggressive), 0, k) == Fallback(flags, goto, k)
  {
  }

  lemma PrependTwice(a: seq<Event>, b: seq<Event>, run: Run)
    ensures Prepend(a, Prepend(b, run)) == Prepend(a + b, run)
  {
    assert a + (b + run.trace) == (a + b) + run.trace;
  }

  /** navigate_with_retries as it runs: the strategy list extended in place, the loop over
      rounds (each round in `TryRound`), then the fallback. */
  method NavigateWithRetries(timeout: int, flags: NavFlags, goto: nat -> GotoResult)
    returns (result: Result<Option<Response>, string>, trace: seq<Event>)
    ensures Run(result, trace) == Navigate(timeout, flags, goto)
  {
    var waitStrategies := BaseStrategies;
    if flags.aggressive {
      waitStrategies := waitStrategies + AggressiveStrategies;
    }
    var maxRetries := if flags.aggressive then 3 else 2;
    assert waitStrategies == Strategies(flags.aggressive) && maxRetries == MaxRetries(flags.aggressive);
    ghost var spec := Navigate(timeout, flags, goto);
    trace := [];
    var calls := 0;
    var attempt := 0;
    while attempt < maxRetries
      invariant 0 <= attempt <= maxRetries
      invariant spec == Prepend(trace, RunFrom(timeout, flags, goto, attempt, 0, calls))
    {
      var done, roundResult, events, callsAfter := TryRound(timeout, flags, goto, waitStrategies, attempt, calls);
      if done {
        assert spec == Run(roundResult, trace + events);
        result, trace := roundResult, trace + events;
        return;
      }
      var pause := [];
      if attempt < maxRetries - 1 {
        pause := [Sleep(RoundPause(attempt))];
      }
      assert pause == AfterRound(attempt, maxRetries);
      PrependTwice(trace, events + pause, RunFrom(timeout, flags, goto, attempt + 1, 0, callsAfter));
      assert trace + (events + pause) == trace + events + pause;
      trace := trace + events + pause;
      calls := callsAfter;
      attempt := attempt + 1;
    }
    FallbackStep(timeout, flags, goto, calls);
    var last;
    result, last := TryFallback(flags, goto, calls);
    trace := trace + last;
  }

  /** One round of navigate_with_retries: the strategies in table order until a goto
      succeeds (`done`), each failure followed by its backoff sleep. */
  method TryRound(timeout: int, flags: NavFlags, goto: nat -> GotoResult, waitStrategies: seq<Strategy>,
                  attempt: nat, calls: nat)
    returns (done: bool, result: Result<Option<Response>, string>, events: seq<Event>, callsAfter: nat)
    requires waitStrategies == Strategies(flags.aggressive) && attempt < MaxRetries(flags.aggressive)
    ensures done ==> RunFrom(timeout, flags, goto, attempt, 0, calls) == Run(result, events)
    ensures !done ==> RunFrom(timeout, flags, goto, attempt, 0, calls)
                      == Prepend(events + AfterRound(attempt, MaxRetries(flags.aggressive)),
                                 RunFrom(timeout, flags, goto, attempt + 1, 0, callsAfter))
  {
    ghost var spec := RunFrom(timeout, flags, goto, attempt, 0, calls);
    ghost var rounds := MaxRetries(flags.aggressive);
    events := [];
    callsAfter := calls;
    var strategyIdx := 0;
    while strategyIdx < |waitStrategies|
      invariant 0 <= strategyIdx <= |waitStrategies|
      invariant strategyIdx < |waitStrategies| ==>
                  spec == Prepend(events, RunFrom(timeout, flags, goto, attempt, strategyIdx, callsAfter))
      invariant strategyIdx == |waitStrategies| ==>
                  spec == Prepend(events + AfterRound(attempt, rounds), RunFrom(timeout, flags, goto, attempt + 1, 0, callsAfter))
    {
      var strategy := waitStrategies[strategyIdx];
      var attemptRecord := Attempt(Some(strategy.waitUntil), AttemptTimeout(timeout, attempt, strategy));
      match goto(callsAfter) {
        case Navigated(response) =>
          SuccessStep(timeout, flags, goto, attempt, strategyIdx, callsAfter);
          events := events + ([Goto(attemptRecord)] + AfterSuccess(strategy, flags));
          done, result := true, Ok(response);
          return;
        case GotoFailed(_) =>
          FailureStep(timeout, flags, goto, attempt, strategyIdx, callsAfter);
          var failed := [Goto(attemptRecord), Sleep(StrategyBackoff(strategyIdx))];
          if strategyIdx + 1 < |waitStrategies| {
            PrependTwice(events, failed, RunFrom(timeout, flags, goto, attempt, strategyIdx + 1, callsAfter + 1));
          } else {
            PrependTwice(events, failed + AfterRound(attempt, rounds), RunFrom(timeout, flags, goto, attempt + 1, 0, callsAfter + 1));
            assert events + (failed + AfterRound(attempt, rounds)) == (events + failed) + AfterRound(attempt, rounds);
          }
          events := events + failed;
      }
      callsAfter := callsAfter + 1;
      strategyIdx := strategyIdx + 1;
    }
    done, result := false, Err("");
  }

  /** The last minimal attempt: a commit wait with 15 s, then a settle wait and, when smart
      waiting is on, a longer readiness wait. */
  method TryFallback(flags: NavFlags, goto: nat -> GotoResult, calls: nat)
    returns (result: Result<Option<Response>, string>, trace: seq<Event>)
    ensures Run(result, trace) == Fallback(flags, goto, calls)
  {
    match goto(calls) {
      case Navigated(response) =>
        trace := [Goto(FallbackAttempt), PageWait(8000)];
        if flags.smartWait {
          trace := trace + [ReadinessWait(10000)];
        }
        result := Ok(response);
      case GotoFailed(message) =>
        trace := [Goto(FallbackAttempt)];
        result := Err(message);
    }
  }

  // ---------------------------------------------------------------------------------------
  // The attempt plan.

  /** The attempts of one round, in table order. */
  function RoundPlan(timeout: int, aggressive: bool, round: nat): (plan: seq<Attempt>)
    ensures |plan| == |Strategies(aggressive)|
  {
    var table := Strategies(aggressive);
    seq(|table|, i requires 0 <= i < |table| => Attempt(Some(table[i].waitUntil), AttemptTimeout(timeout, round, table[i])))
  }

  function RoundsFrom(timeout: int, aggressive: bool, round: nat): seq<Attempt>
    decreases MaxRetries(aggressive) - round
  {
    if round >= MaxRetries(aggressive) then []
    else RoundPlan(timeout, aggressive, round) + RoundsFrom(timeout, aggressive, round + 1)
  }

  /** Every goto navigation may make, in order: each round's attempts, then the fallback. */
  function Plan(timeout: int, aggressive: bool): seq<Attempt>
  {
    RoundsFrom(timeout, aggressive, 0) + [FallbackAttempt]
  }

  /** The attempts still planned from strategy `idx` of round `round` on. */
  function Remaining(timeout: int, aggressive: bool, round: nat, idx: nat): seq<Attempt>
    requires AtPosition(aggressive, round, idx)
  {
    if round == MaxRetries(aggressive) then [FallbackAttempt]
    else RoundPlan(timeout, aggressive, round)[idx..] + RoundsFrom(timeout, aggressive, round + 1) + [FallbackAttempt]
  }

  lemma RemainingStep(timeout: int, aggressive: bool, round: nat, idx: nat)
    requires round < MaxRetries(aggressive) && idx < |Strategies(aggressive)|
    ensures var s := Strategies(aggressive)[idx];
      Remaining(timeout, aggressive, round, idx)[0] == Attempt(Some(s.waitUntil), AttemptTimeout(timeout, round, s))
    ensures idx + 1 < |Strategies(aggressive)| ==>
      Remaining(timeout, aggressive, round, idx) == [Remaining(timeout, aggressive, round, idx)[0]] + Remaining(timeout, aggressive, round, idx + 1)
    ensures idx + 1 == |Strategies(aggressive)| ==>
      Remaining(timeout, aggressive, round, idx) == [Remaining(timeout, aggressive, round, idx)[0]] + Remaining(timeout, aggressive, round + 1, 0)
  {
    var p := RoundPlan(timeout, aggressive, round);
    var tail := RoundsFrom(timeout, aggressive, round + 1) + [FallbackAttempt];
    assert Remaining(timeout, aggressive, round, idx) == p[idx..] + tail;
    assert p[idx..] == [p[idx]] + p[idx + 1..];
    if idx + 1 == |p| {
      assert p[idx + 1..] == [];
      if round + 1 < MaxRetries(aggressive) {
        var q := RoundPlan(timeout, aggressive, round + 1);
        assert q[0..] == q;
        assert Remaining(timeout, aggressive, round + 1, 0)
            == q + RoundsFrom(timeout, aggressive, round + 2) + [FallbackAttempt];
      }
    }
  }

  /** A run walks `plan` from the `k`-th goto call on: its gotos are the first n planned
      attempts, every one but the last failed, the last one's response (whatever its status)
      is what it returns, and it raises only after the whole plan failed. */
  predicate FollowsPlan(run: Run, plan: seq<Attempt>, goto: nat -> GotoResult, k: nat)
  {
    var g := Gotos(run.trace);
    && 1 <= |g| <= |plan|
    && g == plan[..|g|]
    && (forall j :: k <= j < k + |g| - 1 ==> goto(j).GotoFailed?)
    && (run.result.Ok? ==> goto(k + |g| - 1) == Navigated(run.result.value))
    && (run.result.Err? ==> |g| == |plan| && goto(k + |g| - 1) == GotoFailed(run.result.error))
  }

  /** A failed attempt followed by a run that walks the rest of the plan walks the plan. */
  lemma FollowsPlanAfterFailure(failed: seq<Event>, attempt: Attempt, next: Run, rest: seq<Attempt>, goto: nat -> GotoResult, k: nat)
    requires Gotos(failed) == [attempt]
    requires goto(k).GotoFailed?
    requires FollowsPlan(next, rest, goto, k + 1)
    ensures FollowsPlan(Prepend(failed, next), [attempt] + rest, goto, k)
  {
    GotosAppend(failed, next.trace);
    var gn := Gotos(next.trace);
    var g := Gotos(Prepend(failed, next).trace);
    assert g == [attempt] + gn;
    assert ([attempt] + rest)[..|g|] == [attempt] + rest[..|gn|];
    forall j | k <= j < k + |g| - 1
      ensures goto(j).GotoFailed?
    {
      if j > k {
        assert k + 1 <= j < k + 1 + |gn| - 1;
      }
    }
    assert k + |g| - 1 == (k + 1) + |gn| - 1;
  }

  /** A single goto that ends the run, followed only by waits, walks any plan it heads. */
  lemma FollowsPlanAtLastGoto(attempt: Attempt, waits: seq<Event>, result: Result<Option<Response>, string>,
                              plan: seq<Attempt>, goto: nat -> GotoResult, k: nat)
    requires forall i :: 0 <= i < |waits| ==> !waits[i].Goto?
    requires |plan| >= 1 && plan[0] == attempt
    requires result.Ok? ==> goto(k) == Navigated(result.value)
    requires result.Err? ==> |plan| == 1 && goto(k) == GotoFailed(result.error)
    ensures FollowsPlan(Run(result, [Goto(attempt)] + waits), plan, goto, k)
  {
    GotosOfWaits(waits);
    GotosAppend([Goto(attempt)], waits);
    assert Gotos([Goto(attempt)]) == [attempt];
  }

  /** Navigation from any position walks the attempts still planned there. */
  lemma {:induction false} RunFollowsPlan(timeout: int, flags: NavFlags, goto: nat -> GotoResult, round: nat, idx: nat, k: nat)
    requires AtPosition(flags.aggressive, round, idx)
    ensures FollowsPlan(RunFrom(timeout, flags, goto, round, idx, k), Remaining(timeout, flags.aggressive, round, idx), goto, k)
    decreases MaxRetries(flags.aggressive) - round, |Strategies(flags.aggressive)| - idx
  {
    var table, rounds := Strategies(flags.aggressive), MaxRetries(flags.aggressive);
    var plan := Remaining(timeout, flags.aggressive, round, idx);
    var run := RunFrom(timeout, flags, goto, round, idx, k);
    if round == rounds {
      match goto(k)
      case Navigated(response) =>
        var waits := [PageWait(8000)] + (if flags.smartWait then [ReadinessWait(10000)] else []);
        assert run == Run(Ok(response), [Goto(FallbackAttempt)] + waits);
        FollowsPlanAtLastGoto(FallbackAttempt, waits, Ok(response), plan, goto, k);
      case GotoFailed(message) =>
        assert run == Run(Err(message), [Goto(FallbackAttempt)] + []);
        FollowsPlanAtLastGoto(FallbackAttempt, [], Err(message), plan, goto, k);
    } else {
      var s := table[idx];
      var attempt := Attempt(Some(s.waitUntil), AttemptTimeout(timeout, round, s));
      RemainingStep(timeout, flags.aggressive, round, idx);
      match goto(k)
      case Navigated(response) =>
        assert run == Run(Ok(response), [Goto(attempt)] + AfterSuccess(s, flags));
        FollowsPlanAtLastGoto(attempt, AfterSuccess(s, flags), Ok(response), plan, goto, k);
      case GotoFailed(_) =>
        var nround := if idx + 1 < |table| then round else round + 1;
        var nidx := if idx + 1 < |table| then idx + 1 else 0;
        var failed := [Goto(attempt), Sleep(StrategyBackoff(idx))] + (if idx + 1 < |table| then [] else AfterRound(round, rounds));
        var next := RunFrom(timeout, flags, goto, nround, nidx, k + 1);
        if idx + 1 < |table| {
          assert failed == [Goto(attempt), Sleep(StrategyBackoff(idx))];
          assert run == Prepend([Goto(attempt), Sleep(StrategyBackoff(idx))], RunFrom(timeout, flags, goto, round, idx + 1, k + 1));
        } else {
          assert run == Prepend([Goto(attempt), Sleep(StrategyBackoff(idx))] + AfterRound(round, rounds), RunFrom(timeout, flags, goto, round + 1, 0, k + 1));
        }
        assert plan == [attempt] + Remaining(timeout, flags.aggressive, nround, nidx);
        assert Gotos(failed) == [attempt] by {
          GotosOfWaits(failed[1..]);
        }
        RunFollowsPlan(timeout, flags, goto, nround, nidx, k + 1);
        FollowsPlanAfterFailure(failed, attempt, next, Remaining(timeout, flags.aggressive, nround, nidx), goto, k);
    }
  }

  lemma {:induction false} RoundsFromLength(timeout: int, aggressive: bool, round: nat)
    requires round <= MaxRetries(aggressive)
    ensures |RoundsFrom(timeout, aggressive, round)| == (MaxRetries(aggressive) - round) * |Strategies(aggressive)|
    decreases MaxRetries(aggressive) - round
  {
    if round < MaxRetries(aggressive) {
      RoundsFromLength(timeout, aggressive, round + 1);
    }
  }

  lemma {:induction false} LaterRoundsAreCapped(timeout: int, aggressive: bool, round: nat)
    requires round >= 1
    ensures forall i :: 0 <= i < |RoundsFrom(timeout, aggressive, round)| ==> RoundsFrom(timeout, aggressive, round)[i].timeout <= 20000.0
    decreases MaxRetries(aggressive) - round
  {
    if round < MaxRetries(aggressive) {
      LaterRoundsAreCapped(timeout, aggressive, round + 1);
    }
  }

  /** The plan has rounds x strategies + 1 attempts: the first round uses the scaled request
      timeouts in table order, every later attempt is capped at 20 s, and the last one is
      the fallback (commit, 15 s). */
  lemma PlanShape(timeout: int, aggressive: bool)
    ensures var plan, table := Plan(timeout, aggressive), Strategies(aggressive);
      && |plan| == MaxRetries(aggressive) * |table| + 1
      && (forall i :: 0 <= i < |table| ==> plan[i] == Attempt(Some(table[i].waitUntil), timeout as real * table[i].multiplier))
      && (forall i :: |table| <= i < |plan| - 1 ==> plan[i].timeout <= 20000.0)
      && plan[|plan| - 1] == FallbackAttempt
  {
    var table := Strategies(aggressive);
    RoundsFromLength(timeout, aggressive, 0);
    RoundsFromLength(timeout, aggressive, 1);
    LaterRoundsAreCapped(timeout, aggressive, 1);
    var first, later := RoundPlan(timeout, aggressive, 0), RoundsFrom(timeout, aggressive, 1);
    assert Plan(timeout, aggressive) == first + later + [FallbackAttempt];
    forall i | |table| <= i < |Plan(timeout, aggressive)| - 1
      ensures Plan(timeout, aggressive)[i].timeout <= 20000.0
    {
      assert Plan(timeout, aggressive)[i] == later[i - |table|];
    }
  }

  /** navigate_with_retries as a whole: the gotos are a prefix of the plan, so at most
      rounds x strategies + 1 of them; it returns the response of the first goto that
      succeeds, whatever its status, and raises the fallback's error only after every
      planned attempt failed. */
  lemma NavigationFollowsPlan(timeout: int, flags: NavFlags, goto: nat -> GotoResult)
    ensures |Plan(timeout, flags.aggressive)| == MaxRetries(flags.aggressive) * |Strategies(flags.aggressive)| + 1
    ensures var run, plan := Navigate(timeout, flags, goto), Plan(timeout, flags.aggressive);
      var n := |Gotos(run.trace)|;
      && 1 <= n <= |plan|
      && Gotos(run.trace) == plan[..n]
      && (forall j :: 0 <= j < n - 1 ==> goto(j).GotoFailed?)
      && (run.result.Ok? ==> goto(n - 1) == Navigated(run.result.value))
      && (run.result.Err? ==> n == |plan| && goto(n - 1) == GotoFailed(run.result.error))
  {
    RunFollowsPlan(timeout, flags, goto, 0, 0, 0);
    PlanShape(timeout, flags.aggressive);
    assert RoundPlan(timeout, flags.aggressive, 0)[0..] == RoundPlan(timeout, flags.aggressive, 0);
    assert Remaining(timeout, flags.aggressive, 0, 0) == Plan(timeout, flags.aggressive);
  }

  /** When every goto fails, navigation raises after exactly rounds x strategies + 1 calls:
      9 in the default mode and 19 in aggressive mode. */
  lemma EveryAttemptFailing(timeout: int, flags: NavFlags, goto: nat -> GotoResult)
    requires forall k :: goto(k).GotoFailed?
    ensures Navigate(timeout, flags, goto).result.Err?
    ensures |Gotos(Navigate(timeout, flags, goto).trace)| == if flags.aggressive then 19 else 9
  {
    NavigationFollowsPlan(timeout, flags, goto);
    PlanShape(timeout, flags.aggressive);
  }

  // ---------------------------------------------------------------------------------------
  // Where the sleeps fall

  /** Where the sleeps of a trace fall, its gotos being attempts `g0`, `g0 + 1`, ... of the
      plan (attempt g uses strategy g % T of round g / T, T strategies to a round): a goto
      that is not the last is followed at once by its strategy's backoff, then by the pause
      of its round exactly when it ends a round other than the last; after the last goto
      comes no sleep. */
  predicate SleepsPlaced(aggressive: bool, trace: seq<Event>, g0: nat)
  {
    forall i {:trigger SleepsPlacedAt(aggressive, trace, g0, i)} :: 0 <= i < |trace| && trace[i].Goto? ==> SleepsPlacedAt(aggressive, trace, g0, i)
  }

  /** The goto at `i`, attempt g0 + (the gotos before it) of the plan, places its sleeps. */
  predicate SleepsPlacedAt(aggressive: bool, trace: seq<Event>, g0: nat, i: nat)
    requires i < |trace|
  {
    SleepsFollow(aggressive, trace, i, g0 + |Gotos(trace[..i])|)
  }

  /** What follows the goto at `i`, attempt `g` of the plan: its backoff and its round's
      pause when another goto comes later, no sleep at all when none does. */
  predicate SleepsFollow(aggressive: bool, trace: seq<Event>, i: nat, g: nat)
    requires i < |trace|
  {
    var T, rounds := |Strategies(aggressive)|, MaxRetries(aggressive);
    && (Gotos(trace[i + 1..]) != [] ==>
          && i + 2 < |trace|
          && trace[i + 1] == Sleep(StrategyBackoff(g % T))
          && (trace[i + 2].Sleep? <==> g % T == T - 1 && g / T + 1 < rounds)
          && (trace[i + 2].Sleep? ==> trace[i + 2] == Sleep(RoundPause(g / T))))
    && (Gotos(trace[i + 1..]) == [] ==> forall j :: i < j < |trace| ==> !trace[j].Sleep?)
  }

  /** The number of the attempt at strategy `idx` of round `round`, counting from 0. */
  function AttemptIndex(aggressive: bool, round: nat, idx: nat): nat
  {
    round * |Strategies(aggressive)| + idx
  }

  /** Attempt round x T + idx is strategy idx of round `round`, and the attempt after it is
      the next strategy's, or the next round's first. */
  lemma AttemptPosition(aggressive: bool, round: nat, idx: nat)
    requires idx < |Strategies(aggressive)|
    ensures var T, g := |Strategies(aggressive)|, AttemptIndex(aggressive, round, idx);
      && g % T == idx && g / T == round
      && (idx + 1 < T ==> AttemptIndex(aggressive, round, idx + 1) == g + 1)
      && (idx + 1 == T ==> AttemptIndex(aggressive, round + 1, 0) == g + 1)
  {
    if aggressive {
      assert |Strategies(aggressive)| == 6;
    } else {
      assert |Strategies(aggressive)| == 4;
    }
  }

  /** A goto followed only by waits, none of them a sleep, places its sleeps. */
  lemma SleepsPlacedAtLastGoto(aggressive: bool, attempt: Attempt, waits: seq<Event>, g0: nat)
    requires forall i :: 0 <= i < |waits| ==> !waits[i].Goto? && !waits[i].Sleep?
    ensures SleepsPlaced(aggressive, [Goto(attempt)] + waits, g0)
  {
    var trace := [Goto(attempt)] + waits;
    GotosOfWaits(waits);
    assert trace[1..] == waits;
    forall i | 0 <= i < |trace| && trace[i].Goto?
      ensures i == 0
    {
    }
    forall j | 0 < j < |trace|
      ensures !trace[j].Sleep?
    {
      assert trace[j] == waits[j - 1];
    }
  }

  /** The goto of a failed attempt, followed by its backoff and possibly its round's pause,
      then by a run with a goto, places its sleeps. */
  lemma SleepsPlacedHead(aggressive: bool, failed: seq<Event>, rest: seq<Event>, g0: nat)
    requires |failed| == 2 || |failed| == 3
    requires failed[0].Goto?
    requires failed[1] == Sleep(StrategyBackoff(g0 % |Strategies(aggressive)|))
    requires |failed| == 3 <==> g0 % |Strategies(aggressive)| == |Strategies(aggressive)| - 1
                                && g0 / |Strategies(aggressive)| + 1 < MaxRetries(aggressive)
    requires |failed| == 3 ==> failed[2] == Sleep(RoundPause(g0 / |Strategies(aggressive)|))
    requires rest != [] && rest[0].Goto?
    ensures SleepsPlacedAt(aggressive, failed + rest, g0, 0)
  {
    var trace := failed + rest;
    assert Gotos(rest) != [] by {
      assert rest == [rest[0]] + rest[1..];
      GotosAppend([rest[0]], rest[1..]);
    }
    assert trace[..0] == [];
    assert trace[1..] == failed[1..] + rest;
    GotosAppend(failed[1..], rest);
    if |failed| == 3 {
      assert trace[2] == failed[2];
    } else {
      assert trace[2] == rest[0];
    }
  }

  /** What follows a goto does not change when events are put before it. */
  lemma SleepsFollowShift(aggressive: bool, pre: seq<Event>, rest: seq<Event>, i: nat, g: nat)
    requires i < |rest| && SleepsFollow(aggressive, rest, i, g)
    ensures SleepsFollow(aggressive, pre + rest, |pre| + i, g)
  {
    var trace, n := pre + rest, |pre|;
    assert trace[n + i + 1..] == rest[i + 1..];
    if Gotos(rest[i + 1..]) != [] {
      assert trace[n + i + 1] == rest[i + 1] && trace[n + i + 2] == rest[i + 2];
    } else {
      forall j | n + i < j < |trace|
        ensures !trace[j].Sleep?
      {
        assert trace[j] == rest[j - n];
      }
    }
  }

  /** A goto of `rest` that places its sleeps still does so after a failed attempt. */
  lemma SleepsPlacedTail(aggressive: bool, failed: seq<Event>, rest: seq<Event>, g0: nat, i: nat)
    requires |Gotos(failed)| == 1
    requires i < |rest| && SleepsPlacedAt(aggressive, rest, g0 + 1, i)
    ensures SleepsPlacedAt(aggressive, failed + rest, g0, |failed| + i)
  {
    GotosBefore(failed, rest, i);
    var g := g0 + |Gotos((failed + rest)[..|failed| + i])|;
    assert g == g0 + 1 + |Gotos(rest[..i])|;
    SleepsFollowShift(aggressive, failed, rest, i, g);
  }

  /** The gotos before position |pre| + i of pre + rest: those of `pre` and those before `i`
      in `rest`. */
  lemma GotosBefore(pre: seq<Event>, rest: seq<Event>, i: nat)
    requires i <= |rest|
    ensures |Gotos((pre + rest)[..|pre| + i])| == |Gotos(pre)| + |Gotos(rest[..i])|
  {
    assert (pre + rest)[..|pre| + i] == pre + rest[..i];
    GotosAppend(pre, rest[..i]);
  }

  /** A failed attempt, its backoff and possibly its round's pause, put before a run that
      places its sleeps from the next attempt on, place their sleeps. */
  lemma SleepsPlacedAfterFailure(aggressive: bool, failed: seq<Event>, rest: seq<Event>, g0: nat)
    requires |failed| == 2 || |failed| == 3
    requires failed[0].Goto?
    requires failed[1] == Sleep(StrategyBackoff(g0 % |Strategies(aggressive)|))
    requires |failed| == 3 <==> g0 % |Strategies(aggressive)| == |Strategies(aggressive)| - 1
                                && g0 / |Strategies(aggressive)| + 1 < MaxRetries(aggressive)
    requires |failed| == 3 ==> failed[2] == Sleep(RoundPause(g0 / |Strategies(aggressive)|))
    requires rest != [] && rest[0].Goto?
    requires SleepsPlaced(aggressive, rest, g0 + 1)
    ensures SleepsPlaced(aggressive, failed + rest, g0)
  {
    var trace, n := failed + rest, |failed|;
    assert Gotos(failed) == [failed[0].attempt] by {
      assert failed == [failed[0]] + failed[1..];
      GotosAppend([failed[0]], failed[1..]);
      GotosOfWaits(failed[1..]);
    }
    forall i | 0 <= i < |trace| && trace[i].Goto?
      ensures SleepsPlacedAt(aggressive, trace, g0, i)
    {
      if i < n {
        assert i == 0;
        SleepsPlacedHead(aggressive, failed, rest, g0);
      } else {
        assert trace[i] == rest[i - n];
        SleepsPlacedTail(aggressive, failed, rest, g0, i - n);
      }
    }
  }

  /** The failed attempt at strategy `idx` of round `round`, with its backoff and the pause
      after its round when it has one, before a run placing its sleeps from the next attempt
      on, places its sleeps. */
  lemma FailedAttemptPlaced(aggressive: bool, round: nat, idx: nat, nround: nat, nidx: nat,
                            attempt: Attempt, trace: seq<Event>, rest: seq<Event>)
    requires round < MaxRetries(aggressive) && idx < |Strategies(aggressive)|
    requires nround == (if idx + 1 < |Strategies(aggressive)| then round else round + 1)
    requires nidx == (if idx + 1 < |Strategies(aggressive)| then idx + 1 else 0)
    requires rest != [] && rest[0].Goto?
    requires SleepsPlaced(aggressive, rest, AttemptIndex(aggressive, nround, nidx))
    requires trace == [Goto(attempt), Sleep(StrategyBackoff(idx))]
      + (if idx + 1 < |Strategies(aggressive)| then [] else AfterRound(round, MaxRetries(aggressive))) + rest
    ensures SleepsPlaced(aggressive, trace, AttemptIndex(aggressive, round, idx))
  {
    var T, rounds := |Strategies(aggressive)|, MaxRetries(aggressive);
    var g := AttemptIndex(aggressive, round, idx);
    AttemptPosition(aggressive, round, idx);
    assert AttemptIndex(aggressive, nround, nidx) == g + 1;
    var failed := [Goto(attempt), Sleep(StrategyBackoff(idx))] + (if idx + 1 < T then [] else AfterRound(round, rounds));
    SleepsPlacedAfterFailure(aggressive, failed, rest, g);
  }

  /** The fallback places its sleeps: there are none. */
  lemma FallbackSleepsPlaced(flags: NavFlags, goto: nat -> GotoResult, k: nat, g0: nat)
    ensures var trace := Fallback(flags, goto, k).trace;
      trace != [] && trace[0].Goto? && SleepsPlaced(flags.aggressive, trace, g0)
  {
    var waits := if goto(k).Navigated? then [PageWait(8000)] + (if flags.smartWait then [ReadinessWait(10000)] else []) else [];
    assert Fallback(flags, goto, k).trace == [Goto(FallbackAttempt)] + waits;
    SleepsPlacedAtLastGoto(flags.aggressive, FallbackAttempt, waits, g0);
  }

  /** A goto at (`round`, `idx`) that succeeds places its sleeps: there are none after it. */
  lemma SucceededRunPlaced(timeout: int, flags: NavFlags, goto: nat -> GotoResult, round: nat, idx: nat, k: nat)
    requires round < MaxRetries(flags.aggressive) && idx < |Strategies(flags.aggressive)|
    requires goto(k).Navigated?
    ensures var trace := RunFrom(timeout, flags, goto, round, idx, k).trace;
      && trace != [] && trace[0].Goto?
      && SleepsPlaced(flags.aggressive, trace, AttemptIndex(flags.aggressive, round, idx))
  {
    var s := Strategies(flags.aggressive)[idx];
    var attempt := Attempt(Some(s.waitUntil), AttemptTimeout(timeout, round, s));
    assert RunFrom(timeout, flags, goto, round, idx, k).trace == [Goto(attempt)] + AfterSuccess(s, flags);
    SleepsPlacedAtLastGoto(flags.aggressive, attempt, AfterSuccess(s, flags), AttemptIndex(flags.aggressive, round, idx));
  }

  /** The trace of a navigation whose goto at (`round`, `idx`) fails: that goto, its
      backoff, the round's pause when the round ends there, then the trace from the next
      position. */
  lemma FailedRunTrace(timeout: int, flags: NavFlags, goto: nat -> GotoResult, round: nat, idx: nat, k: nat,
                       nround: nat, nidx: nat)
    requires round < MaxRetries(flags.aggressive) && idx < |Strategies(flags.aggressive)|
    requires goto(k).GotoFailed?
    requires nround == (if idx + 1 < |Strategies(flags.aggressive)| then round else round + 1)
    requires nidx == (if idx + 1 < |Strategies(flags.aggressive)| then idx + 1 else 0)
    requires AtPosition(flags.aggressive, nround, nidx)
    ensures var s := Strategies(flags.aggressive)[idx];
      RunFrom(timeout, flags, goto, round, idx, k).trace
      == [Goto(Attempt(Some(s.waitUntil), AttemptTimeout(timeout, round, s))), Sleep(StrategyBackoff(idx))]
         + (if idx + 1 < |Strategies(flags.aggressive)| then [] else AfterRound(round, MaxRetries(flags.aggressive)))
         + RunFrom(timeout, flags, goto, nround, nidx, k + 1).trace
  {
    FailureStep(timeout, flags, goto, round, idx, k);
  }

  /** A goto at (`round`, `idx`) that fails, before a navigation that places its sleeps from
      the next position on, places its sleeps. */
  lemma FailedRunPlaced(timeout: int, flags: NavFlags, goto: nat -> GotoResult, round: nat, idx: nat, k: nat,
                        nround: nat, nidx: nat)
    requires round < MaxRetries(flags.aggressive) && idx < |Strategies(flags.aggressive)|
    requires goto(k).GotoFailed?
    requires nround == (if idx + 1 < |Strategies(flags.aggressive)| then round else round + 1)
    requires nidx == (if idx + 1 < |Strategies(flags.aggressive)| then idx + 1 else 0)
    requires AtPosition(flags.aggressive, nround, nidx)
    requires var next := RunFrom(timeout, flags, goto, nround, nidx, k + 1).trace;
      && next != [] && next[0].Goto?
      && SleepsPlaced(flags.aggressive, next, AttemptIndex(flags.aggressive, nround, nidx))
    ensures var trace := RunFrom(timeout, flags, goto, round, idx, k).trace;
      && trace != [] && trace[0].Goto?
      && SleepsPlaced(flags.aggressive, trace, AttemptIndex(flags.aggressive, round, idx))
  {
    var s := Strategies(flags.aggressive)[idx];
    var attempt := Attempt(Some(s.waitUntil), AttemptTimeout(timeout, round, s));
    var trace := RunFrom(timeout, flags, goto, round, idx, k).trace;
    var next := RunFrom(timeout, flags, goto, nround, nidx, k + 1).trace;
    FailedRunTrace(timeout, flags, goto, round, idx, k, nround, nidx);
    FailedAttemptPlaced(flags.aggressive, round, idx, nround, nidx, attempt, trace, next);
  }

  /** Navigation from any position places its sleeps, counting attempts from there. */
  lemma {:induction false} RunSleepsPlaced(timeout: int, flags: NavFlags, goto: nat -> GotoResult, round: nat, idx: nat, k: nat)
    requires AtPosition(flags.aggressive, round, idx)
    ensures var trace := RunFrom(timeout, flags, goto, round, idx, k).trace;
      && trace != [] && trace[0].Goto?
      && SleepsPlaced(flags.aggressive, trace, AttemptIndex(flags.aggressive, round, idx))
    decreases MaxRetries(flags.aggressive) - round, |Strategies(flags.aggressive)| - idx
  {
    var T := |Strategies(flags.aggressive)|;
    if round == MaxRetries(flags.aggressive) {
      FallbackSleepsPlaced(flags, goto, k, AttemptIndex(flags.aggressive, round, idx));
    } else if goto(k).Navigated? {
      SucceededRunPlaced(timeout, flags, goto, round, idx, k);
    } else {
      var nround, nidx := if idx + 1 < T then round else round + 1, if idx + 1 < T then idx + 1 else 0;
      RunSleepsPlaced(timeout, flags, goto, nround, nidx, k + 1);
      FailedRunPlaced(timeout, flags, goto, round, idx, k, nround, nidx);
    }
  }

  /** navigate_with_retries sleeps as the plan says: after the failed attempt g (strategy
      g % T of round g / T) comes at once the backoff of that strategy; a round's pause comes
      after its last strategy exactly when the round is not the last one; and nothing after
      the goto that succeeds, or after the fallback, is a sleep. */
  lemma NavigationSleeps(timeout: int, flags: NavFlags, goto: nat -> GotoResult)
    ensures SleepsPlaced(flags.aggressive, Navigate(timeout, flags, goto).trace, 0)
  {
    RunSleepsPlaced(timeout, flags, goto, 0, 0, 0);
  }

  // ---------------------------------------------------------------------------------------
  // _wait_for_content_readiness

  /** The loading indicators the readiness script looks for, in its order. */
  const LoadingSelectors: seq<Selector> := [
    ClassContains("loading"), ClassContains("spinner"), ClassContains("loader"),
    ClassToken("loading"), ClassToken("spinner"), ClassToken("loader"),
    IdEquals("loading"), IdEquals("spinner"),
    AttrEquals("data-loading", "true"), AttrEquals("aria-busy", "true")
  ]

  predicate LoadingIndicatorVisible(page: PageState)
  {
    exists i, j :: 0 <= i < |LoadingSelectors| && 0 <= j < |page.elements|
      && Matches(page.elements[j], LoadingSelectors[i]) && page.elements[j].visible
  }

  /** The readiness script: the document is complete, no loading indicator is rendered,
      jQuery has no request in flight, and with more than 3 images at least 70% are loaded. */
  predicate PageReady(page: PageState)
  {
    && page.readyState == "complete"
    && !LoadingIndicatorVisible(page)
    && !(page.jQueryActive.Some? && page.jQueryActive.value > 0)
    && !(|page.images| > 3 && LoadedCount(page.images) as real / |page.images| as real < 0.7)
  }

  /** The readiness script as it runs: early returns, then the image counters. */
  method CheckContentReadiness(page: PageState) returns (ready: bool)
    ensures ready == PageReady(page)
  {
    if page.readyState != "complete" {
      return false;
    }
    var s := 0;
    while s < |LoadingSelectors|
      invariant 0 <= s <= |LoadingSelectors|
      invariant forall i, j :: 0 <= i < s && 0 <= j < |page.elements| && Matches(page.elements[j], LoadingSelectors[i])
                  ==> !page.elements[j].visible
    {
      var k := 0;
      while k < |page.elements|
        invariant 0 <= k <= |page.elements|
        invariant forall j :: 0 <= j < k && Matches(page.elements[j], LoadingSelectors[s]) ==> !page.elements[j].visible
      {
        var el := page.elements[k];
        if Matches(el, LoadingSelectors[s]) && el.visible {
          return false;
        }
        k := k + 1;
      }
      s := s + 1;
    }
    if page.jQueryActive.Some? && page.jQueryActive.value > 0 {
      return false;
    }
    var loadedImages := 0;
    var totalImages := 0;
    var i := 0;
    while i < |page.images|
      invariant 0 <= i <= |page.images|
      invariant totalImages == i
      invariant loadedImages == LoadedCount(page.images[..i])
    {
      var img := page.images[i];
      totalImages := totalImages + 1;
      if img.complete && img.naturalHeight != 0 {
        loadedImages := loadedImages + 1;
      } else if img.src != "" && "data:" <= img.src {
        loadedImages := loadedImages + 1;
      } else if img.src == "" && img.dataSrc == "" {
        loadedImages := loadedImages + 1;
      }
      assert page.images[..i + 1][..i] == page.images[..i];
      i := i + 1;
    }
    assert page.images[..i] == page.images;
    if totalImages > 3 && loadedImages as real / totalImages as real < 0.7 {
      return false;
    }
    return true;
  }

  /** Three images or fewer never hold readiness up; with more, a ready page has at least
      7 in 10 of them loaded. */
  lemma ReadinessImageRule(page: PageState)
    ensures |page.images| <= 3 ==>
      (PageReady(page) <==> page.readyState == "complete" && !LoadingIndicatorVisible(page)
                             && !(page.jQueryActive.Some? && page.jQueryActive.value > 0))
    ensures PageReady(page) && |page.images| > 3 ==> 10 * LoadedCount(page.images) >= 7 * |page.images|
  {
    if |page.images| > 3 {
      SeventyPercent(LoadedCount(page.images), |page.images|);
    }
  }

  /** A class token is also a class substring, so the `.loading`, `.spinner` and `.loader`
      selectors add nothing to `[class*=...]`: an indicator is visible exactly when a rendered
      element has one of those words in its class, or is #loading or #spinner, or is marked
      busy. */
  lemma LoadingIndicatorsReduce(page: PageState)
    ensures LoadingIndicatorVisible(page) <==>
      exists j :: 0 <= j < |page.elements| && page.elements[j].visible && BusyMarker(page.elements[j])
  {
    forall j | 0 <= j < |page.elements| && page.elements[j].visible && BusyMarker(page.elements[j])
      ensures exists i :: 0 <= i < |LoadingSelectors| && Matches(page.elements[j], LoadingSelectors[i])
    {
      var e := page.elements[j];
      if Contains(e.classAttr, "loading") {
        assert Matches(e, LoadingSelectors[0]);
      } else if Contains(e.classAttr, "spinner") {
        assert Matches(e, LoadingSelectors[1]);
      } else if Contains(e.classAttr, "loader") {
        assert Matches(e, LoadingSelectors[2]);
      } else if e.id == "loading" {
        assert Matches(e, LoadingSelectors[6]);
      } else if e.id == "spinner" {
        assert Matches(e, LoadingSelectors[7]);
      } else if "data-loading" in e.attributes && e.attributes["data-loading"] == "true" {
        assert Matches(e, LoadingSelectors[8]);
      } else {
        assert Matches(e, LoadingSelectors[9]);
      }
    }
    forall i, j | 0 <= i < |LoadingSelectors| && 0 <= j < |page.elements| && Matches(page.elements[j], LoadingSelectors[i])
      ensures BusyMarker(page.elements[j])
    {
      var e := page.elements[j];
      if 3 <= i <= 5 {
        ClassTokenIsSubstring(e.classAttr, LoadingSelectors[i].name);
      }
    }
  }

  /** The markers a loading-indicator selector can find on an element. */
  predicate BusyMarker(e: DomElement)
  {
    || Contains(e.classAttr, "loading") || Contains(e.classAttr, "spinner") || Contains(e.classAttr, "loader")
    || e.id == "loading" || e.id == "spinner"
    || ("data-loading" in e.attributes && e.attributes["data-loading"] == "true")
    || ("aria-busy" in e.attributes && e.attributes["aria-busy"] == "true")
  }

  lemma ClassTokenIsSubstring(classAttr: string, name: string)
    requires HasClass(classAttr, name)
    ensures Contains(classAttr, name)
  {
    var i :| 0 <= i <= |classAttr| && TokenAt(classAttr, name, i);
    ContainsAt(classAttr, name, i);
  }
}
