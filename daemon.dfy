/**
 * The daemon's mutable state and the loop body of `main`. The globals
 * `alertActive` and `currentAlertCounter` become the fields `state` and
 * `counter` of a `Monitor`; the configuration and the digest used for the
 * incident key are fixed when it is built. Network outcomes are inputs.
 */
module Daemon {
  import opened Wrappers
  import opened Probe
  import opened Incident
  import opened Alerting

  class Monitor {
    var state: AlarmState
    var counter: int
    const cfg: Config
    const hash: string -> string

    /** The two globals as a value, for the specification functions. */
    function Snapshot(): Alerts
      reads this
    {
      Alerts(state, counter)
    }

    /** The process start: no state known yet, no failures counted. */
    constructor (cfg: Config, hash: string -> string)
      ensures Snapshot() == INITIAL && this.cfg == cfg && this.hash == hash
    {
      state := Unknown;
      counter := 0;
      this.cfg := cfg;
      this.hash := hash;
    }

    /**
     * `sendPagerDutyAlert(trigger)`: returns whether it ended in an error and
     * the event it posted, if it made a network call at all.
     */
    method SendAlert(trigger: bool, post: Post) returns (failed: bool, posted: Option<Event>)
      modifies this
      ensures var r := Send(old(Snapshot()), trigger, post);
              Snapshot() == r.next && failed == r.failed && (posted.Some? <==> r.calls != [])
      ensures posted.Some? ==> posted.value == MakeEvent(cfg, hash, trigger)
    {
      if (trigger && state == Failed) || (!trigger && state == OK) {
        return false, None;
      }
      posted := Some(MakeEvent(cfg, hash, trigger));
      if post.TransportError? {
        return true, posted;
      }
      if post.code >= 400 {
        return true, posted;
      }
      if trigger {
        state := Failed;
      } else {
        state := OK;
      }
      counter := 0;
      failed := false;
    }

    /** One iteration of the loop in `main`, given the probe's verdict; returns the calls it made. */
    method Tick(probeOk: bool, resolvePost: Post, triggerPost: Post) returns (calls: seq<Call>)
      modifies this
      ensures Ticked(Snapshot(), calls) ==
              Step(old(Snapshot()), cfg.alertThreshold, probeOk, resolvePost, triggerPost)
    {
      calls := [];
      if !probeOk {
        counter := counter + 1;
      } else {
        var failed, posted := SendAlert(false, resolvePost);
        if posted.Some? {
          calls := calls + [Call(false, !failed)];
        }
        if failed {
          return;
        }
      }
      if counter >= cfg.alertThreshold {
        var failed, posted := SendAlert(true, triggerPost);
        if posted.Some? {
          calls := calls + [Call(true, !failed)];
        }
        if failed {
          return;
        }
      }
    }

    /**
     * The whole loop body: run the probe against the configured key with a
     * fresh `marker`, then act on its verdict. Any probe error, a mismatch
     * included, counts as one failure.
     */
    method CheckAndTick(marker: string, store: StoreOutcomes, resolvePost: Post, triggerPost: Post)
      returns (err: Option<ProbeError>, storeCalls: seq<StoreCall>, calls: seq<Call>)
      modifies this
      ensures err == None <==> ProbeSucceeds(store, marker)
      ensures err == Some(ClientError) <==> !store.clientOk
      ensures err == Some(WriteError) <==> store.clientOk && !store.writeOk
      ensures err == Some(ReadError) <==> store.clientOk && store.writeOk && !store.readOk
      ensures err == Some(ValueMismatch) <==>
                store.clientOk && store.writeOk && store.readOk && store.readValue != Some(marker)
      ensures err == Some(DeleteError) <==>
                store.clientOk && store.writeOk && store.readOk && store.readValue == Some(marker) && !store.deleteOk
      ensures |storeCalls| <= 3
      ensures forall i :: 0 <= i < |storeCalls| ==>
                storeCalls[i] == FullChain(TrimLeadingSlashes(cfg.vaultKey), marker)[i]
      ensures |storeCalls| == 0 <==> err == Some(ClientError)
      ensures |storeCalls| == 1 <==> err == Some(WriteError)
      ensures |storeCalls| == 2 <==> err == Some(ReadError) || err == Some(ValueMismatch)
      ensures |storeCalls| == 3 <==> err == None || err == Some(DeleteError)
      // a passing probe wrote, read back and deleted the marker on the trimmed key
      ensures err == None ==> storeCalls == FullChain(TrimLeadingSlashes(cfg.vaultKey), marker)
      ensures Ticked(Snapshot(), calls) ==
              Step(old(Snapshot()), cfg.alertThreshold, err == None, resolvePost, triggerPost)
    {
      err, storeCalls := ExecuteTest(cfg.vaultKey, marker, store);
      calls := Tick(err == None, resolvePost, triggerPost);
    }

    /** The result of running `ticks` from `a` after `done` calls were already made. */
    ghost function RunFrom(a: Alerts, done: seq<Call>, ticks: seq<TickInput>): Ticked
      reads this
    {
      var rest := Run(a, cfg.alertThreshold, ticks);
      Ticked(rest.next, done + rest.calls)
    }

    /** The loop of `main` over a finite sequence of ticks; returns every call made, in order. */
    method RunTicks(ticks: seq<TickInput>) returns (calls: seq<Call>)
      modifies this
      ensures Ticked(Snapshot(), calls) == Run(old(Snapshot()), cfg.alertThreshold, ticks)
    {
      calls := [];
      ghost var whole := Run(Snapshot(), cfg.alertThreshold, ticks);
      var i := 0;
      while i < |ticks|
        invariant 0 <= i <= |ticks|
        invariant whole == RunFrom(Snapshot(), calls, ticks[i..])
      {
        var t := ticks[i];
        ghost var before := Snapshot();
        var more := Tick(t.probeOk, t.resolvePost, t.triggerPost);
        assert ticks[i..][0] == t && ticks[i..][1..] == ticks[i + 1..];
        RunCons(before, cfg.alertThreshold, ticks[i..], Snapshot(), more);
        ghost var rest := Run(Snapshot(), cfg.alertThreshold, ticks[i + 1..]);
        AppendAssociative(calls, more, rest.calls);
        calls := calls + more;
        i := i + 1;
      }
      assert ticks[i..] == [];
    }
  }
}
