/**
 * The alert state machine and the tick policy of the monitoring loop, as
 * functions on values. `Send` is one call of `sendPagerDutyAlert`, `Step` is
 * one iteration of the loop in `main`, `Run` folds `Step` over a finite
 * sequence of ticks. The class in module Daemon updates its fields exactly
 * as these functions say; the properties of the policy are proved here.
 */
module Alerting {

  /** `alarmState`; the process starts in `Unknown`. */
  datatype AlarmState = Unknown | OK | Failed

  /** What came back from the HTTP POST to the events endpoint. */
  datatype Post = TransportError | Status(code: int)

  /** A delivery the daemon sees succeed: a response whose status is below 400. */
  predicate Accepted(p: Post)
  {
    p.Status? && p.code < 400
  }

  /** The two process-wide globals: `alertActive` and `currentAlertCounter`. */
  datatype Alerts = Alerts(state: AlarmState, counter: int)

  const INITIAL := Alerts(Unknown, 0)

  /** One network call to the events endpoint: its kind and whether it was accepted. */
  datatype Call = Call(trigger: bool, delivered: bool)

  /** The state a confirmed delivery of this kind commits. */
  function Committed(trigger: bool): AlarmState
  {
    if trigger then Failed else OK
  }

  /** The de-duplication test of `sendPagerDutyAlert`: the state is already the one this kind commits. */
  predicate AlreadyIn(s: AlarmState, trigger: bool)
  {
    (trigger && s == Failed) || (!trigger && s == OK)
  }

  /** Some call of the given kind is in the log. */
  predicate HasCall(calls: seq<Call>, trigger: bool)
  {
    exists i :: 0 <= i < |calls| && calls[i].trigger == trigger
  }

  /** Some call in the log was delivered. */
  predicate AnyDelivered(calls: seq<Call>)
  {
    exists i :: 0 <= i < |calls| && calls[i].delivered
  }

  /** The state after replaying a log of calls: the one the last delivered call committed. */
  function Replay(s: AlarmState, calls: seq<Call>): AlarmState
    decreases |calls|
  {
    if calls == [] then s
    else Replay(if calls[0].delivered then Committed(calls[0].trigger) else s, calls[1..])
  }

  /** No call in the log asks for the state that was already current when it was made. */
  predicate NoDuplicates(s: AlarmState, calls: seq<Call>)
  {
    forall i :: 0 <= i < |calls| ==> !AlreadyIn(Replay(s, calls[..i]), calls[i].trigger)
  }

  /** The outcome of one `sendPagerDutyAlert`: the new globals, whether it returned an error, the calls it made. */
  datatype Sent = Sent(next: Alerts, failed: bool, calls: seq<Call>)

  /** `sendPagerDutyAlert(trigger)` when the POST would come back as `p`. */
  function Send(a: Alerts, trigger: bool, p: Post): (r: Sent)
    // at most one network call, and none exactly when the state is already the target one
    ensures |r.calls| <= 1
    ensures r.calls == [] <==> AlreadyIn(a.state, trigger)
    ensures r.calls != [] ==> r.calls[0] == Call(trigger, Accepted(p))
    // an error is returned only for a call that was made and not accepted
    ensures r.failed <==> r.calls != [] && !Accepted(p)
    // a de-duplicated or failed call changes neither global
    ensures r.failed || r.calls == [] ==> r.next == a
    // a confirmed delivery commits the new state and resets the counter
    ensures r.calls == [Call(trigger, true)] ==> r.next == Alerts(Committed(trigger), 0)
    // the same facts in terms of the call log
    ensures r.next.state == Replay(a.state, r.calls) && NoDuplicates(a.state, r.calls)
  {
    if AlreadyIn(a.state, trigger) then Sent(a, false, [])
    else
      var c := Call(trigger, Accepted(p));
      assert [c][1..] == [] && [c][..0] == [];
      if !Accepted(p) then Sent(a, true, [c])
      else Sent(Alerts(Committed(trigger), 0), false, [c])
  }

  /** The result of one tick or of a run of ticks: the new globals and the calls made, in order. */
  datatype Ticked = Ticked(next: Alerts, calls: seq<Call>)

  /**
   * One iteration of the loop in `main`: a failed probe increments the
   * counter; a passing one attempts a resolve, and a resolve that errors
   * ends the tick; otherwise the tick ends with the threshold check, which
   * attempts a trigger once the counter has reached the threshold.
   */
  function Step(a: Alerts, threshold: int, probeOk: bool, resolvePost: Post, triggerPost: Post): (t: Ticked)
    // at most a resolve followed by a trigger, each delivered exactly when its POST was accepted
    ensures |t.calls| <= 2
    ensures |t.calls| == 2 ==> !t.calls[0].trigger && t.calls[1].trigger
    ensures forall k :: 0 <= k < |t.calls| ==>
              t.calls[k].delivered == Accepted(if t.calls[k].trigger then triggerPost else resolvePost)
  {
    var mid := if probeOk then Send(a, false, resolvePost)
               else Sent(Alerts(a.state, a.counter + 1), false, []);
    if mid.failed then Ticked(mid.next, mid.calls)
    else if mid.next.counter >= threshold then
      var r := Send(mid.next, true, triggerPost);
      Ticked(r.next, mid.calls + r.calls)
    else Ticked(mid.next, mid.calls)
  }

  /** Which calls one tick attempts, in terms of its inputs (which of them are delivered is Step's own contract). */
  lemma StepAttempts(a: Alerts, threshold: int, probeOk: bool, resolvePost: Post, triggerPost: Post)
    ensures var t := Step(a, threshold, probeOk, resolvePost, triggerPost);
      // a resolve is attempted exactly on a passing probe while the state is not OK
      && (HasCall(t.calls, false) <==> probeOk && a.state != OK)
      // when a trigger is attempted
      && (HasCall(t.calls, true) <==>
            if !probeOk then a.state != Failed && a.counter + 1 >= threshold
            else if a.state == OK then a.counter >= threshold
            else Accepted(resolvePost) && 0 >= threshold)
      // a resolve that errors ends the tick with nothing changed
      && (probeOk && a.state != OK && !Accepted(resolvePost) ==> t == Ticked(a, [Call(false, false)]))
  {
    var mid := if probeOk then Send(a, false, resolvePost)
               else Sent(Alerts(a.state, a.counter + 1), false, []);
    if !mid.failed && mid.next.counter >= threshold {
      var r := Send(mid.next, true, triggerPost);
      HasCallConcat(mid.calls, r.calls, true);
      HasCallConcat(mid.calls, r.calls, false);
    }
  }

  /** The counter after one tick: reset by any delivery, otherwise one more per failed probe and unchanged on a passing one. */
  lemma StepCounter(a: Alerts, threshold: int, probeOk: bool, resolvePost: Post, triggerPost: Post)
    ensures var t := Step(a, threshold, probeOk, resolvePost, triggerPost);
            t.next.counter == if AnyDelivered(t.calls) then 0
                              else a.counter + (if probeOk then 0 else 1)
  {
    var mid := if probeOk then Send(a, false, resolvePost)
               else Sent(Alerts(a.state, a.counter + 1), false, []);
    if !mid.failed && mid.next.counter >= threshold {
      var r := Send(mid.next, true, triggerPost);
      AnyDeliveredConcat(mid.calls, r.calls);
    }
  }

  /** The state after one tick is the one its last delivered call committed, and no call duplicated the current state. */
  lemma StepCommits(a: Alerts, threshold: int, probeOk: bool, resolvePost: Post, triggerPost: Post)
    ensures var t := Step(a, threshold, probeOk, resolvePost, triggerPost);
            t.next.state == Replay(a.state, t.calls) && NoDuplicates(a.state, t.calls)
  {
    var mid := if probeOk then Send(a, false, resolvePost)
               else Sent(Alerts(a.state, a.counter + 1), false, []);
    assert !probeOk ==> mid.calls == [] && Replay(a.state, mid.calls) == a.state;
    if !mid.failed && mid.next.counter >= threshold {
      var r := Send(mid.next, true, triggerPost);
      ReplayConcat(a.state, mid.calls, r.calls);
      NoDuplicatesConcat(a.state, mid.calls, r.calls);
    }
  }

  /** The inputs of one tick: the probe's verdict and what the two possible POSTs would return. */
  datatype TickInput = TickInput(probeOk: bool, resolvePost: Post, triggerPost: Post)

  /** The loop of `main` over a finite sequence of ticks; the calls of all ticks in order. */
  function Run(a: Alerts, threshold: int, ticks: seq<TickInput>): (r: Ticked)
    ensures |r.calls| <= 2 * |ticks|
    decreases |ticks|
  {
    if ticks == [] then Ticked(a, [])
    else
      var t := Step(a, threshold, ticks[0].probeOk, ticks[0].resolvePost, ticks[0].triggerPost);
      var rest := Run(t.next, threshold, ticks[1..]);
      Ticked(rest.next, t.calls + rest.calls)
  }

  lemma AppendAssociative(x: seq<Call>, y: seq<Call>, z: seq<Call>)
    ensures x + (y + z) == (x + y) + z
  {
  }

  /** One tick off the front of a run. */
  lemma RunCons(a: Alerts, threshold: int, ticks: seq<TickInput>, next: Alerts, calls: seq<Call>)
    requires ticks != []
    requires Ticked(next, calls) == Step(a, threshold, ticks[0].probeOk, ticks[0].resolvePost, ticks[0].triggerPost)
    ensures Run(a, threshold, ticks) ==
            Ticked(Run(next, threshold, ticks[1..]).next, calls + Run(next, threshold, ticks[1..]).calls)
  {
  }

  lemma {:induction false} ReplayConcat(s: AlarmState, x: seq<Call>, y: seq<Call>)
    ensures Replay(s, x + y) == Replay(Replay(s, x), y)
    decreases |x|
  {
    if x == [] {
      assert x + y == y;
    } else {
      assert (x + y)[1..] == x[1..] + y;
      ReplayConcat(if x[0].delivered then Committed(x[0].trigger) else s, x[1..], y);
    }
  }

  lemma NoDuplicatesConcat(s: AlarmState, x: seq<Call>, y: seq<Call>)
    requires NoDuplicates(s, x) && NoDuplicates(Replay(s, x), y)
    ensures NoDuplicates(s, x + y)
  {
    forall i | 0 <= i < |x + y|
      ensures !AlreadyIn(Replay(s, (x + y)[..i]), (x + y)[i].trigger)
    {
      if i < |x| {
        assert (x + y)[..i] == x[..i];
      } else {
        assert (x + y)[..i] == x + y[..i - |x|];
        ReplayConcat(s, x, y[..i - |x|]);
      }
    }
  }

  lemma HasCallConcat(x: seq<Call>, y: seq<Call>, trigger: bool)
    ensures HasCall(x + y, trigger) <==> HasCall(x, trigger) || HasCall(y, trigger)
  {
    if HasCall(x + y, trigger) {
      var k :| 0 <= k < |x + y| && (x + y)[k].trigger == trigger;
      if k < |x| {
        assert x[k] == (x + y)[k];
      } else {
        assert y[k - |x|] == (x + y)[k];
      }
    }
    if HasCall(x, trigger) {
      var k :| 0 <= k < |x| && x[k].trigger == trigger;
      assert (x + y)[k] == x[k];
    }
    if HasCall(y, trigger) {
      var k :| 0 <= k < |y| && y[k].trigger == trigger;
      assert (x + y)[|x| + k] == y[k];
    }
  }

  lemma AnyDeliveredConcat(x: seq<Call>, y: seq<Call>)
    ensures AnyDelivered(x + y) <==> AnyDelivered(x) || AnyDelivered(y)
  {
    if AnyDelivered(x + y) {
      var k :| 0 <= k < |x + y| && (x + y)[k].delivered;
      if k < |x| {
        assert x[k] == (x + y)[k];
      } else {
        assert y[k - |x|] == (x + y)[k];
      }
    }
    if AnyDelivered(x) {
      var k :| 0 <= k < |x| && x[k].delivered;
      assert (x + y)[k] == x[k];
    }
    if AnyDelivered(y) {
      var k :| 0 <= k < |y| && y[k].delivered;
      assert (x + y)[|x| + k] == y[k];
    }
  }

  /** Replaying calls none of which delivers the opposite kind leaves a committed state as it is. */
  lemma {:induction false} ReplayKeeps(trigger: bool, calls: seq<Call>)
    requires forall k :: 0 <= k < |calls| && calls[k].delivered ==> calls[k].trigger == trigger
    ensures Replay(Committed(trigger), calls) == Committed(trigger)
    decreases |calls|
  {
    if calls != [] {
      assert calls[0].delivered ==> calls[0].trigger == trigger;
      ReplayKeeps(trigger, calls[1..]);
    }
  }

  /**
   * The state after any run of ticks is the one the last delivered call
   * committed (the initial one if none was delivered): the state is
   * committed only after a delivery the daemon saw succeed.
   */
  lemma {:induction false} RunStateIsLastDelivered(a: Alerts, threshold: int, ticks: seq<TickInput>)
    ensures Run(a, threshold, ticks).next.state == Replay(a.state, Run(a, threshold, ticks).calls)
    decreases |ticks|
  {
    if ticks != [] {
      var t := Step(a, threshold, ticks[0].probeOk, ticks[0].resolvePost, ticks[0].triggerPost);
      StepCommits(a, threshold, ticks[0].probeOk, ticks[0].resolvePost, ticks[0].triggerPost);
      RunStateIsLastDelivered(t.next, threshold, ticks[1..]);
      ReplayConcat(a.state, t.calls, Run(t.next, threshold, ticks[1..]).calls);
    }
  }

  /** Over any run of ticks, no trigger is sent while Failed and no resolve while OK. */
  lemma {:induction false} RunNoDuplicates(a: Alerts, threshold: int, ticks: seq<TickInput>)
    ensures NoDuplicates(a.state, Run(a, threshold, ticks).calls)
    decreases |ticks|
  {
    if ticks != [] {
      var t := Step(a, threshold, ticks[0].probeOk, ticks[0].resolvePost, ticks[0].triggerPost);
      StepCommits(a, threshold, ticks[0].probeOk, ticks[0].resolvePost, ticks[0].triggerPost);
      RunNoDuplicates(t.next, threshold, ticks[1..]);
      NoDuplicatesConcat(a.state, t.calls, Run(t.next, threshold, ticks[1..]).calls);
    }
  }

  /**
   * In a log without duplicates, once a call is delivered, the next call of
   * the same kind comes only after a delivered call of the opposite kind.
   */
  lemma RepeatNeedsOpposite(s: AlarmState, calls: seq<Call>, i: int, j: int)
    requires NoDuplicates(s, calls)
    requires 0 <= i < j < |calls|
    requires calls[i].delivered && calls[j].trigger == calls[i].trigger
    ensures exists k :: i < k < j && calls[k].delivered && calls[k].trigger != calls[i].trigger
  {
    var trigger := calls[i].trigger;
    if !exists k :: i < k < j && calls[k].delivered && calls[k].trigger != trigger {
      var middle := calls[i + 1..j];
      forall k | 0 <= k < |middle| && middle[k].delivered
        ensures middle[k].trigger == trigger
      {
        assert middle[k] == calls[i + 1 + k];
      }
      assert calls[..j] == calls[..i] + [calls[i]] + middle;
      ReplayConcat(s, calls[..i] + [calls[i]], middle);
      ReplayConcat(s, calls[..i], [calls[i]]);
      ReplayKeeps(trigger, middle);
      assert false;
    }
  }

  /**
   * Over any run of ticks: after a trigger (resolve) is delivered, no further
   * trigger (resolve) is even attempted until a resolve (trigger) is delivered.
   */
  lemma RunNeverRepeatsConfirmedAlert(a: Alerts, threshold: int, ticks: seq<TickInput>, i: int, j: int)
    requires 0 <= i < j < |Run(a, threshold, ticks).calls|
    requires Run(a, threshold, ticks).calls[i].delivered
    requires Run(a, threshold, ticks).calls[j].trigger == Run(a, threshold, ticks).calls[i].trigger
    ensures exists k :: i < k < j && Run(a, threshold, ticks).calls[k].delivered
                        && Run(a, threshold, ticks).calls[k].trigger != Run(a, threshold, ticks).calls[i].trigger
  {
    RunNoDuplicates(a, threshold, ticks);
    RepeatNeedsOpposite(a.state, Run(a, threshold, ticks).calls, i, j);
  }

  /** The counter never goes negative: it only grows by one or is reset to 0. */
  lemma {:induction false} RunCounterNonNegative(a: Alerts, threshold: int, ticks: seq<TickInput>)
    requires a.counter >= 0
    ensures Run(a, threshold, ticks).next.counter >= 0
    decreases |ticks|
  {
    if ticks != [] {
      var t := Step(a, threshold, ticks[0].probeOk, ticks[0].resolvePost, ticks[0].triggerPost);
      StepCounter(a, threshold, ticks[0].probeOk, ticks[0].resolvePost, ticks[0].triggerPost);
      RunCounterNonNegative(t.next, threshold, ticks[1..]);
    }
  }

  /** After N failed probes in which no call was delivered, the counter has grown by exactly N. */
  lemma {:induction false} RunCountsFailures(a: Alerts, threshold: int, ticks: seq<TickInput>)
    requires forall k :: 0 <= k < |ticks| ==> !ticks[k].probeOk
    requires !AnyDelivered(Run(a, threshold, ticks).calls)
    ensures Run(a, threshold, ticks).next == Alerts(a.state, a.counter + |ticks|)
    decreases |ticks|
  {
    if ticks != [] {
      var t := Step(a, threshold, ticks[0].probeOk, ticks[0].resolvePost, ticks[0].triggerPost);
      StepCommits(a, threshold, ticks[0].probeOk, ticks[0].resolvePost, ticks[0].triggerPost);
      StepCounter(a, threshold, ticks[0].probeOk, ticks[0].resolvePost, ticks[0].triggerPost);
      var rest := Run(t.next, threshold, ticks[1..]);
      assert Run(a, threshold, ticks).calls == t.calls + rest.calls;
      AnyDeliveredConcat(t.calls, rest.calls);
      ReplayWithoutDelivery(a.state, t.calls);
      RunCountsFailures(t.next, threshold, ticks[1..]);
    }
  }

  /** Calls none of which was delivered leave the state as it is. */
  lemma {:induction false} ReplayWithoutDelivery(s: AlarmState, calls: seq<Call>)
    requires !AnyDelivered(calls)
    ensures Replay(s, calls) == s
    decreases |calls|
  {
    if calls != [] {
      assert !calls[0].delivered;
      assert forall k :: 0 <= k < |calls[1..]| ==> calls[1..][k] == calls[k + 1];
      ReplayWithoutDelivery(s, calls[1..]);
    }
  }
}
