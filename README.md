# vault-rw-monitoring: the alert state machine and tick policy

vault-rw-monitoring is a small Go daemon. On a fixed interval it writes a fresh marker into a Vault
key, reads it back, compares the two and deletes the key. It counts failures in a
process-wide counter. Once the counter reaches a configured threshold it triggers a PagerDuty
incident. It resolves the incident again when a probe passes. This project models the part
of `main.go` that makes decisions:

- the loop body of `main`;
- `sendPagerDutyAlert`, its de-duplication and the state it commits;
- the early-return step chain of `executeTest`;
- the incident key and the event that is posted.

Modules:

- `Probe` (probe.dfy): `executeTest` as a method over the outcomes of the store calls, and
  `strings.TrimLeft(key, "/")` as `TrimLeadingSlashes`.
- `Incident` (incident.dfy): the event fields, the `%d` rendering of the threshold in the
  description, and the incident key. SHA-256 with its `%x` rendering is a parameter `hash`.
- `Alerting` (alerting.dfy): the globals `alertActive` and `currentAlertCounter` as a value
  `Alerts`. `Send` is one call of `sendPagerDutyAlert`, `Step` is one loop iteration and `Run`
  folds `Step` over a finite sequence of ticks. All the properties of the policy are proved here.
- `Daemon` (daemon.dfy): class `Monitor`, whose fields `state` and `counter` are the two globals.
  Its methods `SendAlert`, `Tick`, `CheckAndTick` and `RunTicks` change those fields in place,
  and each is proved to do exactly what `Send`, `Step` and `Run` say.
- `Scenarios` (scenarios.dfy): concrete multi-tick runs.

The network is not modelled. Its outcomes are inputs. A POST comes back as `Post`, either
`TransportError` or `Status(code)`. It is accepted exactly when it is a status below 400
(main.go:173-181). Each store call has a success flag, and the value read back is an
`Option<string>`.

## Where the code and its own texts differ (the model follows the code)

- The event description built at main.go:160 says the instance "failed %d consecutive tests". In the code, the
  de-duplicating early return of `sendPagerDutyAlert` (main.go:152-154) comes before the
  reset (main.go:188). So a passing probe while the state is already OK resets nothing.
  Failures separated by passing probes then add up to a trigger
  (`FailuresAccumulateAcrossSuccesses`), although they were not consecutive.
- The threshold flag is described as "How often to fail before sending PagerDuty alerts"
  (main.go:41). The check `>=` at main.go:89 runs on every tick whose resolve step did not
  error, so a trigger can be attempted on a tick whose probe passed (`PassingProbeTriggers`,
  `TriggerAfterPassingProbe`).
- The same flag text reads as a positive count, but nothing checks it. With a threshold of 0 or
  less, a confirmed resolve is followed by a trigger in the same tick (`StepAttempts`).

## Model

| member | source | states |
|---|---|---|
| `Probe.TrimLeadingSlashes` | main.go:111 | the result is the suffix of the key left after removing every leading '/', and it does not start with '/' |
| `Probe.ExecuteTest` | main.go:100-131 | no error exactly when client, write, read and delete all succeed and the marker is read back. Otherwise the error names the first failing step, and a missing or different value is a mismatch. The store requests are a prefix of write, read, delete on the slash-trimmed key, ending at the failing step |
| `Incident.Decimal` | main.go:160 | the `%d` rendering is non-empty, starts with '-' exactly for a negative number, and is otherwise digits. There is at least one digit and no leading zero: the first digit is '0' only for zero, which is rendered as exactly "0" |
| `Incident.DecimalRoundTrip` | main.go:160 | reading the `%d` rendering of any integer back as a signed decimal gives that integer |
| `Incident.DescriptionNamesTargetAndThreshold` | main.go:160 | the description starts with "Vault instance at ", then the Vault address, then " failed ", then exactly the `%d` rendering of the threshold, which reads back as the threshold, then " consecutive tests of the vault-rw-monitoring" |
| `Incident.MakeEvent` | main.go:156-166 | the event kind is "trigger" for a trigger and "resolve" otherwise. The service key is the PagerDuty key, the incident key is `IncidentKey` of the Vault address, the description is `Description` of the configuration, and the client names the version |
| `Incident.TriggerAndResolveShareKey` | main.go:156-166 | a trigger and a resolve differ only in their kind. They carry the same incident key, and that key depends on the Vault address alone |
| `Incident.DistinctAddressesDistinctKeys` | main.go:193-195 | `IncidentKey` digests "vault-rw-monitoring of " followed by the address; with a collision-free digest, different addresses give different incident keys |
| `Alerting.Send` | main.go:151-191 | there is no network call exactly when the state is already the target one. An error comes only from a call that was made and not accepted. A de-duplicated or failed call changes neither state nor counter. A confirmed trigger commits Failed, a confirmed resolve commits OK, and both reset the counter to 0 |
| `Alerting.Step` | main.go:74-95 | a tick makes at most two calls, and when it makes two they are a resolve followed by a trigger. Each call is delivered exactly when the POST of its kind was accepted |
| `Alerting.StepAttempts` | main.go:75-94 | a tick makes a resolve exactly on a passing probe while not OK. It makes a trigger exactly when it reaches the threshold check (main.go:89) with the counter at or above the threshold and the state not Failed: after a failed probe the counter has grown by one, after a passing probe while OK it is unchanged, and after a resolve it is 0 if the resolve was delivered. A resolve that is not delivered ends the tick with the state and counter unchanged |
| `Alerting.StepCounter` | main.go:75-76 | after a tick the counter is 0 if any call was delivered (main.go:188), and otherwise it is the old counter plus one for a failed probe and the old counter for a passing one |
| `Alerting.StepCommits` | main.go:152-154 | after a tick the state is the one committed by its last delivered call (main.go:183-187), or the old one, and no call of the tick was of the kind the state already had |
| `Alerting.Run` | main.go:74 | over any sequence of ticks the loop makes at most 2·(number of ticks) calls in total |
| `Alerting.RunStateIsLastDelivered` | main.go:183-188 | after any sequence of ticks, the state is the one committed by the last delivered call, or the initial one if no call was delivered |
| `Alerting.RunNoDuplicates` | main.go:152-154 | over any sequence of ticks, no trigger is attempted while Failed and no resolve while OK |
| `Alerting.RepeatNeedsOpposite` | main.go:152-154 | in a log without duplicates, a call of the same kind as an earlier delivered one needs a delivered call of the opposite kind in between |
| `Alerting.RunNeverRepeatsConfirmedAlert` | main.go:152-188 | over any sequence of ticks, after a delivered trigger (resolve) no further trigger (resolve) is attempted until a resolve (trigger) is delivered |
| `Alerting.RunCounterNonNegative` | main.go:74-95 | starting from a non-negative counter, the counter stays non-negative over any sequence of ticks |
| `Alerting.RunCountsFailures` | main.go:75-77 | after N failed probes with no delivered call, the state is unchanged and the counter has grown by exactly N |
| `Daemon.Monitor.constructor` | main.go:47-49 | the process starts in the Unknown state with the counter at 0 |
| `Daemon.Monitor.SendAlert` | main.go:151-191 | the fields change exactly as `Send` says. The method reports an error exactly as `Send` does, and when it makes a network call it posts `MakeEvent` of that kind |
| `Daemon.Monitor.Tick` | main.go:74-95 | the fields and the calls made are exactly those of `Step` |
| `Daemon.Monitor.CheckAndTick` | main.go:75-131 | runs the probe on the configured key and then the tick. The probe part carries every clause of `ExecuteTest`: the error names the first failing step, and the store requests are the matching prefix of write, read, delete on the trimmed key. A passing probe made all three. Any probe error, a mismatch included, counts as a failed probe of the tick |
| `Daemon.Monitor.RunTicks` | main.go:74-95 | folding `Tick` over a sequence of ticks ends in the state and call log of `Run` |
| `Scenarios.ThreeFailuresTrigger` | main.go:74-95 | threshold 3 from the start: nothing is sent after two failures. The third failure sends one confirmed trigger, giving Failed with counter 0 |
| `Scenarios.ResolveServerErrorKeepsFailed` | main.go:83-86 | while Failed, a passing probe whose resolve gets status 500 leaves Failed with counter 0 and attempts no trigger |
| `Scenarios.OneFailureWhileOk` | main.go:75-77 | while OK with threshold 4, one failure sends nothing and the counter becomes 1 |
| `Scenarios.FirstSuccessResolves` | main.go:83 | from the initial state, the first passing probe makes a resolve call |
| `Scenarios.FailuresAccumulateAcrossSuccesses` | main.go:152-154 | while OK with threshold 2, the ticks fail, pass, fail send a trigger |
| `Scenarios.LostTriggerKeepsCounter` | main.go:89-93 | while OK, a trigger whose delivery fails leaves OK with the counter at the threshold |
| `Scenarios.PassingProbeTriggers` | main.go:83-94 | while OK with the counter at the threshold, a passing probe sends no resolve but a trigger |
| `Scenarios.TriggerAfterPassingProbe` | main.go:83-94 | a lost trigger followed by a passing probe gives two trigger calls, the second confirmed |

## Left out

- Vault client calls (`api.NewClient`, `SetToken`, `Logical().Write/Read/Delete`): foreign network calls. Each one's outcome, and the value read back, is an input.
- A read that returns no secret at all, and a stored value that is not a string (`v.(string)`), would make main.go:122 panic. The model assumes the read yields a string value or none.
- The marker from `uuid.NewV4()` is a parameter, since it is randomness.
- The JSON encoding of `pagerDutyEvent` and its error return (main.go:168-171) are left out: it is an encoding library, and the struct always encodes. The omitted empty fields (`details`, `client_url`, `contexts`) are left out too.
- The HTTP POST to the fixed events URL and the closing of the response body are left out. The POST is reduced to its outcome, `Post`.
- SHA-256 and its `%x` rendering are an arbitrary function `hash` of the prefixed address. The hash's internals are not modelled.
- The real-time ticker `time.Tick` and the infinite loop are replaced by a fold over a finite sequence of ticks. The unreachable `log.Fatalf` after the loop is left out.
- Flag and environment parsing, version printing, credential checks and `os.Exit` in `init`, and all logging (including the verbose flag): process plumbing.
- The counter is an unbounded integer. Go's platform `int` is 32 or 64 bits wide, so the counter would wrap after 2^31 failed ticks on a 32-bit target and after 2^63 on a 64-bit one; the wrap-around is not modelled.
