/** Multi-tick behaviour of the loop in `main`, on concrete sequences of outcomes. */
module Scenarios {
  import opened Alerting

  const OK_POST := Status(200)
  const FAIL := TickInput(false, OK_POST, OK_POST)
  const PASS := TickInput(true, OK_POST, OK_POST)

  /** Threshold 3 from the start: three failed probes send one trigger, on the third tick, and reset the counter. */
  lemma ThreeFailuresTrigger()
    ensures Run(INITIAL, 3, [FAIL, FAIL]) == Ticked(Alerts(Unknown, 2), [])
    ensures Run(INITIAL, 3, [FAIL, FAIL, FAIL]) == Ticked(Alerts(Failed, 0), [Call(true, true)])
  {
    var fired := [Call(true, true)];
    assert Step(INITIAL, 3, false, OK_POST, OK_POST) == Ticked(Alerts(Unknown, 1), []);
    assert Step(Alerts(Unknown, 1), 3, false, OK_POST, OK_POST) == Ticked(Alerts(Unknown, 2), []);
    assert Step(Alerts(Unknown, 2), 3, false, OK_POST, OK_POST) == Ticked(Alerts(Failed, 0), fired);
    RunCons(Alerts(Unknown, 2), 3, [FAIL], Alerts(Failed, 0), fired);
    assert [FAIL][1..] == [] && fired + [] == fired;
    RunCons(Alerts(Unknown, 1), 3, [FAIL], Alerts(Unknown, 2), []);
    RunCons(Alerts(Unknown, 1), 3, [FAIL, FAIL], Alerts(Unknown, 2), []);
    assert [FAIL, FAIL][1..] == [FAIL];
    RunCons(INITIAL, 3, [FAIL, FAIL], Alerts(Unknown, 1), []);
    RunCons(INITIAL, 3, [FAIL, FAIL, FAIL], Alerts(Unknown, 1), []);
    assert [FAIL, FAIL, FAIL][1..] == [FAIL, FAIL];
  }

  /** While Failed, a passing probe whose resolve gets a 500 keeps the state: still Failed, counter still 0, no trigger. */
  lemma ResolveServerErrorKeepsFailed(threshold: int, triggerPost: Post)
    ensures Step(Alerts(Failed, 0), threshold, true, Status(500), triggerPost)
            == Ticked(Alerts(Failed, 0), [Call(false, false)])
  {
  }

  /** While OK with threshold 4, one failed probe sends nothing and only counts. */
  lemma OneFailureWhileOk(resolvePost: Post, triggerPost: Post)
    ensures Step(Alerts(OK, 0), 4, false, resolvePost, triggerPost) == Ticked(Alerts(OK, 1), [])
  {
  }

  /** From the initial state the first passing probe makes a resolve call. */
  lemma FirstSuccessResolves(threshold: int, resolvePost: Post, triggerPost: Post)
    ensures var t := Step(INITIAL, threshold, true, resolvePost, triggerPost);
            t.calls != [] && t.calls[0] == Call(false, Accepted(resolvePost))
  {
  }

  /**
   * While OK, a de-duplicated resolve does not reset the counter, so
   * failures separated by passing probes add up: with threshold 2, fail,
   * pass, fail sends a trigger although no two failures were consecutive.
   */
  lemma FailuresAccumulateAcrossSuccesses()
    ensures Run(Alerts(OK, 0), 2, [FAIL, PASS, FAIL]) == Ticked(Alerts(Failed, 0), [Call(true, true)])
  {
    var fired := [Call(true, true)];
    assert Step(Alerts(OK, 0), 2, false, OK_POST, OK_POST) == Ticked(Alerts(OK, 1), []);
    assert Step(Alerts(OK, 1), 2, true, OK_POST, OK_POST) == Ticked(Alerts(OK, 1), []);
    assert Step(Alerts(OK, 1), 2, false, OK_POST, OK_POST) == Ticked(Alerts(Failed, 0), fired);
    RunCons(Alerts(OK, 1), 2, [FAIL], Alerts(Failed, 0), fired);
    assert [FAIL][1..] == [] && fired + [] == fired;
    RunCons(Alerts(OK, 1), 2, [PASS, FAIL], Alerts(OK, 1), []);
    assert [PASS, FAIL][1..] == [FAIL];
    RunCons(Alerts(OK, 0), 2, [FAIL, PASS, FAIL], Alerts(OK, 1), []);
    assert [FAIL, PASS, FAIL][1..] == [PASS, FAIL];
  }

  /** A trigger whose delivery failed leaves the state OK and the counter at the threshold. */
  lemma LostTriggerKeepsCounter(lostPost: Post)
    requires !Accepted(lostPost)
    ensures Step(Alerts(OK, 0), 1, false, OK_POST, lostPost) == Ticked(Alerts(OK, 1), [Call(true, false)])
  {
  }

  /** While OK with the counter at the threshold, a passing probe sends no resolve but a trigger. */
  lemma PassingProbeTriggers()
    ensures Step(Alerts(OK, 1), 1, true, OK_POST, OK_POST) == Ticked(Alerts(Failed, 0), [Call(true, true)])
  {
  }

  /**
   * A trigger whose delivery failed (a transport error or a status of 400
   * or more) leaves the counter at the threshold, so the next tick attempts
   * a trigger although its probe passed.
   */
  lemma TriggerAfterPassingProbe(lostPost: Post)
    requires !Accepted(lostPost)
    ensures Run(Alerts(OK, 0), 1, [TickInput(false, OK_POST, lostPost), PASS])
            == Ticked(Alerts(Failed, 0), [Call(true, false), Call(true, true)])
  {
    var ticks := [TickInput(false, OK_POST, lostPost), PASS];
    var lost, fired := [Call(true, false)], [Call(true, true)];
    LostTriggerKeepsCounter(lostPost);
    PassingProbeTriggers();
    RunCons(Alerts(OK, 1), 1, [PASS], Alerts(Failed, 0), fired);
    assert [PASS][1..] == [] && fired + [] == fired;
    assert ticks[0] == TickInput(false, OK_POST, lostPost) && ticks[1..] == [PASS];
    RunCons(Alerts(OK, 0), 1, ticks, Alerts(OK, 1), lost);
    assert lost + fired == [Call(true, false), Call(true, true)];
  }
}
