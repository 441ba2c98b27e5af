# http-relay-gateway: a verified model

The gateway relays HTTP requests through small workers deployed on edge
platforms. This project models, in Dafny, the parts of it that have to be right
under concurrency and on arbitrary input, and proves what they promise.

- **The rollout protocol** (`Protocol*.dfy`): reconciliation workers, the applier
  of serving generations and request attempts as one step system at lock
  granularity. `ProtocolInvariant` states what every step keeps,
  `ProtocolWorkers`, `ProtocolSteps` and `ProtocolRuns` prove it of every step and
  hence of every run, `ProtocolTheorems` draws the safety statements from it,
  `ProtocolBarrier` says exactly when the drain barrier applies,
  `ProtocolTrace` exhibits runs in which it does not, and `ProtocolRoutes` and
  `ProtocolPasses` say what each answer of the outside makes a worker do.
- **The readiness registry** (`Readiness.dfy`, `ReadinessLaws.dfy`,
  `ReadinessEffects.dfy`, `RegistryObject.dfy`, `Backoff.dfy`): each operation as a
  function on values, its effect field by field, the laws of all operation
  sequences, and the class of mutable entry objects proved against those functions.
- **The data plane** (`Failover.dfy`, `FailoverPasses.dfy`, `Inflight.dfy`,
  `RuntimeHealth.dfy`, `ServingPool.dfy`, `ServingProof.dfy`, `Rotation.dfy`): the
  attempt loop, the in-flight counter, passive health, its attachment across
  rebuilds, fair rotation, and the way from a verification to a pool's relay.
- **Text and streams** (`Sse.dfy`, `SseWire.dfy`, `Sanitize.dfy`,
  `SanitizeForms.dfy`, `SanitizedText.dfy`, `Bytes.dfy`, `Config.dfy`): the heartbeat inserted into event streams, the diagnostics
  sanitizer stage by stage and as a whole, project slugs and the acceptance of a
  configuration.

`dafny verify dfyconfig.toml` checks everything.

Where the program and its documentation disagree the model follows the program,
and the exact condition is proved:

- Size skips consume the retry budget and a pick rotates over the relays off
  cooldown, so the 413 rule of the README holds exactly when the relays of the
  selector agree on the size (`Failover.DocumentedRuleExact`), which a provider
  pin guarantees (`ServingPool.PinnedRuleHolds`); for a request alone on healthy
  relays it holds exactly when the budget covers them (`Failover.RuleAloneExact`).
- "A deploy never runs under a request in flight" holds exactly for rollouts that
  start with an obligation to drain (`ProtocolBarrier.BarrierExact`), which a
  failure-streak demotion, a pause, a removal taken back and a second scope flip
  do not leave (`ProtocolTrace`).
- Heartbeat comments are invisible exactly at event boundaries
  (`Sse.BoundaryExact`), which the relay does not wait for, and behind a byte
  order mark (`Sse.MarkExact`).
- Dropping controls last can assemble a URL the sanitizer has not redacted; it
  cannot exactly when the only controls are line breaks and tabs
  (`SanitizedText.RedactedExactly`).
- The retry delay is the documented one exactly when the shift does not wrap to a
  smaller positive value (`Backoff.DelayExactly`), which the configuration does
  not rule out: it does not bound `verify_backoff_base`.

## Model

| member | source | states |
|---|---|---|
| `ProtocolRuns.RunKeeps` | internal/reconcile/reconcile.go:273-303 | The protocol invariant holds after every run of every interleaving of worker passes, registry reloads, applier steps and request attempts |
| `ProtocolTheorems.RolloutBarrier` | internal/reconcile/reconcile.go:462-548 | In every run, from the drained barrier through the deploy call to the verdict, a rollout that started with an obligation finds its relay out of the installed pool with no request in flight, and has completed its own drain |
| `ProtocolTheorems.ObligationExact` | internal/reconcile/reconcile.go:476-485 | When the obligation is decided it equals the registry's state: the relay serves, owes a deferred drain, or carries an unspent scope-change marker |
| `ProtocolBarrier.BarrierExact` | internal/reconcile/reconcile.go:462-548 | In every reachable state of sequential passes, a rollout about to start with a request in flight on its relay can come to deploy under traffic if and only if the relay neither serves, nor owes a deferred drain, nor carries an unspent scope-change marker |
| `ProtocolTrace.BarrierPasses` | internal/reconcile/reconcile.go:479-507 | Some run takes a serving relay through demotion, settling and draining to its deploy |
| `ProtocolTrace.StreakDemotionSkipsBarrier` | internal/readiness/registry.go:733-742 | A run that exhibits it: a demotion by failure streak sets none of the three flags, and the next pass deploys while a request is in flight |
| `ProtocolTrace.ReAddSkipsBarrier` | internal/readiness/registry.go:353-364 | Another: a removal taken back before its delete ran, likewise |
| `ProtocolTrace.PauseSkipsBarrier` | internal/readiness/registry.go:790-810 | Another: a pause revokes admission and sets no flag, and the rollout that follows deploys under a request |
| `ProtocolTrace.TwoFlipsSkipBarrier` | internal/readiness/registry.go:388-408 | Another: the second of two scope flips overwrites the marker the first one set |
| `ProtocolTheorems.DeleteSafety` | internal/reconcile/reconcile.go:561-626 | While a remote delete is in progress its relay is out of the pool, idle, not serving, still the captured entry object, and labelled removing |
| `ProtocolTheorems.NoOverlap` | internal/reconcile/reconcile.go:569-581 | No deploy overlaps a delete or another deploy of the same relay, whatever was purged and re-created |
| `ProtocolTheorems.CompletionHitsItsOwnEntry` | internal/readiness/registry.go:582-588 | A holder's key names the very entry object it captured, so every effective completion lands there and in its own incarnation |
| `ProtocolTheorems.StaleReleaseIsVoid` | internal/readiness/registry.go:542-578 | A release after the purge of its entry changes nothing, so it never frees a re-created entry |
| `ProtocolTheorems.SettleSound` | cmd/http-relay-gateway/main.go:238-283 | The applied count never exceeds the installed snapshot's notification count; when it equals the registry's, the snapshot holds exactly the current serving keys with their entry objects and generations |
| `ProtocolTheorems.SettleAnswers` | cmd/http-relay-gateway/main.go:274-283 | When settle answers true the installed pool was built from a snapshot taken after every notification counted at its entry |
| `ProtocolTheorems.SettledExcludes` | cmd/http-relay-gateway/main.go:274-283 | After settle answers true the installed pool was built at or after the caller's mark and does not hold its relay |
| `ProtocolTheorems.VerifiedOnly` | internal/reconcile/reconcile.go:527-548 | Every pool member and every request under way travels under an admission verified on exactly that URL and key, in that incarnation of that very entry object, with no end of its admission or incarnation between the verdict and the snapshot it came from |
| `ProtocolTheorems.EndsAreLogged` | internal/readiness/registry.go:353-420 | Every step that ends a relay's admission or incarnation (demotion, pause, flip, removal, re-add, purge) is in that record, so nothing proved crosses one |
| `ProtocolTheorems.CountExact` | internal/gateway/gateway.go:712-765 | The in-flight count of a relay is the number of its attempts between begin and end |
| `ProtocolTheorems.DrainedStaysDrained` | internal/gateway/gateway.go:168-183 | An idle relay outside the pool stays idle along every run that installs no pool with it |
| `ProtocolTheorems.ObligationConserved` | internal/reconcile/reconcile.go:485-507 | A rollout that began with an obligation has drained when it releases, or its entry carries the drain marker unless its incarnation is over |
| `ProtocolPasses.VerdictExact` | internal/reconcile/reconcile.go:424-446 | Which verdict does what: a passed verification admits under the verified pair, a suspension page pauses, no answer and a broken round trip each count one failure with its reason, and a missing, stale or key-rejecting worker, and nothing else, goes on to a rollout with the registry as it was; a stale verdict changes nothing |
| `ProtocolPasses.NewVerdictExact` | internal/reconcile/reconcile.go:526-548 | The verdict on the worker just deployed: admitted only if it passed, paused on a suspension page, else demoted at once with the reason that names the verdict |
| `ProtocolPasses.GivesUp` | internal/reconcile/reconcile.go:376-416 | Without a credential, on a discovery error and after a deploy error: one failure with its reason, and the hold is released |
| `ProtocolPasses.FailedLookArms` | internal/reconcile/reconcile.go:443-446 | In every run a failed look at a relay that is not paused releases it with its streak one higher, its gate armed and no rollout begun |
| `ProtocolPasses.ToldFirst` | internal/reconcile/reconcile.go:417-446 | In every run a worker in a rollout, or past one, was told so: its discovery found nothing or its probe met drift; and one that forgets its relay was told that the remote is deleted or that no credential is on record |
| `ProtocolPasses.OnlyPurgesForget` | internal/readiness/registry.go:852-861 | Nothing but a completed delete of its own worker takes a relay out of the registry |
| `ProtocolPasses.GateExact` | internal/readiness/registry.go:594-601 | A worker passes its retry gate exactly when the relay is unknown or the time of its gate has come; otherwise it ends with nothing changed |
| `ProtocolPasses.GateKeepsOff` | internal/reconcile/reconcile.go:360-364 | Until a gate opens, and unless a reload or a settings change concerns the relay, no run of any workers takes anybody past it, and the entry stays as it was left |
| `ProtocolPasses.FailureKeepsOff` | internal/readiness/registry.go:590-593 | So in every run after a failed look: the gate lies ahead, and nobody passes it at any earlier time |
| `ProtocolRoutes.RevokeRoute` | internal/reconcile/reconcile.go:476-485 | A relay that was serving is demoted first; any of the three obligations leads through the barrier and nothing else does |
| `ProtocolRoutes.SettleRoute` | cmd/http-relay-gateway/main.go:274-283 | The settle barrier is passed once the target is applied, given up at shutdown, and waited at otherwise |
| `ProtocolRoutes.DrainRoute` | internal/gateway/gateway.go:198-218 | The drain is passed once nothing is in flight, deferred at the time-out, and waited at otherwise |
| `ProtocolRoutes.DeleteCallRoute` | internal/reconcile/reconcile.go:589-602 | Without a credential on record the relay is dropped, without a client the delete is retried later, otherwise the platform is called |
| `ProtocolPasses.SwapExact` | cmd/http-relay-gateway/main.go:404-444 | The installed pool holds a snapshot's member exactly when its URL is well formed, and under its admission |
| `ProtocolPasses.TurnCatchesUp` | cmd/http-relay-gateway/main.go:238-283 | An undisturbed turn of the applier applies every notification and installs exactly the serving relays under the pair and incarnation they serve in |
| `ProtocolPasses.OutsideActs` | internal/reconcile/reconcile.go:273-303 | What comes from outside: with one pass at a time a reload waits until no worker holds a relay, and a settings change is part of an applier's turn |
| `ProtocolPasses.WorkersStart` | internal/reconcile/reconcile.go:360-364 | Every worker starts at its gate, under a number no other worker has |
| `ProtocolPasses.RequestCounts` | internal/gateway/gateway.go:404-428 | A request begins exactly on a relay of the installed pool, under its admission, and counts until it ends |
| `ProtocolRuns.StepKeeps` | cmd/http-relay-gateway/main.go:238-283 | Every step of every actor keeps the invariant, enabled or not |
| `ProtocolSteps.WorkKeeps` | internal/reconcile/reconcile.go:360-626 | Every step of every worker keeps it |
| `ProtocolSteps.TakeHoldKeeps` | internal/readiness/registry.go:542-557 | Taking the hold keeps it: nobody else holds the relay, and no admission changes |
| `ProtocolSteps.JudgeKeeps` | internal/reconcile/reconcile.go:424-446 | The step after the verdict keeps the invariant, whatever the verdict; which one does what is ProtocolPasses.VerdictExact |
| `ProtocolSteps.RevokeKeeps` | internal/reconcile/reconcile.go:476-485 | The demotion step takes the relay out of service and fixes the mark no later pool may go behind |
| `ProtocolSteps.SettleKeeps` | cmd/http-relay-gateway/main.go:274-283 | Passing the settle barrier means the installed pool is as recent as the mark |
| `ProtocolSteps.DrainKeeps` | internal/gateway/gateway.go:198-218 | Passing the drain means the count is zero; a timeout defers |
| `ProtocolSteps.DeferKeeps` | internal/reconcile/reconcile.go:486-503 | A deferred barrier leaves the marker on the entry |
| `ProtocolSteps.JudgeNewKeeps` | internal/reconcile/reconcile.go:526-548 | A new worker is admitted only on a passed verification, paused on a suspension, demoted otherwise |
| `ProtocolSteps.DeleteHoldKeeps` | internal/readiness/registry.go:564-578 | A delete's hold is granted only while the identity is removing, and then nothing newer may serve it |
| `ProtocolSteps.DeleteFinishKeeps` | internal/readiness/registry.go:852-861 | The purge leaves only the stale closure behind |
| `ProtocolSteps.ReleaseKeeps` | internal/readiness/registry.go:548-556 | The release frees the captured object |
| `ProtocolRuns.SyncStepKeeps` | internal/readiness/registry.go:328-422 | A reload keeps the invariant: entry objects and holds stand, and a new incarnation starts out of service |
| `ProtocolRuns.BuildKeeps` | cmd/http-relay-gateway/main.go:396-444 | A snapshot taken now is exact and everything in it was verified |
| `ProtocolRuns.SwapKeeps` | internal/gateway/gateway.go:176-183 | Installing the snapshot's pool keeps every settled barrier settled |
| `ProtocolRuns.BeginAttemptKeeps` | internal/gateway/gateway.go:404-428 | A request can only begin on a relay no barrier has cleared |
| `ReadinessLaws.RunOk` | internal/readiness/registry.go:272-877 | After any sequence of operations: readyCount is the number of serving entries, ready implies serving, paused and removing imply not serving, a paused gate is the last attempt plus the revival interval (also across settings changes), fingerprints match scopes, entry objects are distinct |
| `ReadinessLaws.ApplyKeeps` | internal/readiness/registry.go:905-911 | Every operation keeps that invariant and announces itself: the serving keys with their generations stand still unless the notification count rises |
| `ReadinessLaws.FailingArmsGate` | internal/readiness/registry.go:691-743 | A failure arms the gate within (now, now+BackoffMax], and within RecoverMax when nothing serves once it is recorded |
| `ReadinessLaws.DemoteArmsGate` | internal/readiness/registry.go:752-781 | So does a demotion, the one that empties the fleet included |
| `ReadinessLaws.DeleteFailedArmsGate` | internal/readiness/registry.go:867-877 | So does a failed delete |
| `ReadinessLaws.PausedGate` | internal/readiness/registry.go:790-810 | A paused relay keeps the revival cadence through every later failure |
| `ReadinessLaws.StreakDemotes` | internal/readiness/registry.go:733-742 | A serving relay keeps serving exactly while the streak is below the threshold |
| `ReadinessLaws.MarkerFate` | internal/readiness/registry.go:820-842 | An operation leaves the drain marker on its entry if and only if it does not complete the drain, admit, remove or re-add |
| `ReadinessLaws.MarkerSurvives` | internal/readiness/registry.go:812-842 | The marker survives every run without such an operation |
| `ReadinessLaws.ScopeMarkerFate` | internal/readiness/registry.go:388-408 | The scope-change marker of a continuing member changes exactly at a flip, to whether the flip revoked admission |
| `ReadinessLaws.SecondFlipDropsMarker` | internal/readiness/registry.go:398-398 | Two flips in a row, with no rollout between, end without the marker although the first owed a drain |
| `ReadinessLaws.StaleCompletionIsVoid` | internal/readiness/registry.go:582-588 | A completion of another generation or of a missing entry changes nothing |
| `ReadinessLaws.LateCompletionHitsRecreatedEntry` | internal/readiness/registry.go:38-48 | Why completions must precede the release: after a purge generations restart, and a completion kept past its release would be admitted on the next entry |
| `ReadinessLaws.SyncKeeps` | internal/readiness/registry.go:328-422 | Sync keeps the registry invariant and announces itself |
| `ReadinessLaws.UpdateSettingsKeeps` | internal/readiness/registry.go:272-302 | So does a live settings change, which re-arms every gate |
| `ReadinessEffects.ServesExactly` | internal/readiness/registry.go:653-810 | Over every history: a relay serves under a pair if and only if its latest effective admission was under that pair and no demotion, pause, spent streak, removal or scope move has come since |
| `ReadinessEffects.ServesNext` | internal/readiness/registry.go:328-877 | The successor law of admission, operation by operation |
| `ReadinessEffects.FailingEffect` | internal/readiness/registry.go:691-743 | What a failure makes of every field, the label, the gate and the two counters |
| `ReadinessEffects.DemoteEffect` | internal/readiness/registry.go:752-781 | The same of a demotion |
| `ReadinessEffects.PauseEffect` | internal/readiness/registry.go:790-810 | Of a pause |
| `ReadinessEffects.ReadyEffect` | internal/readiness/registry.go:653-681 | Of an admission |
| `ReadinessEffects.EnterEffect` | internal/readiness/registry.go:624-645 | Of a phase: paused relays stay paused through discovery and verification, and deploying alone clears the streak and opens the gate |
| `ReadinessEffects.MarkerEffects` | internal/readiness/registry.go:820-842 | Of the drain and scope markers |
| `ReadinessEffects.DeleteEffects` | internal/readiness/registry.go:852-877 | Of a completed and a failed delete |
| `ReadinessEffects.HoldEffects` | internal/readiness/registry.go:542-578 | Of taking and releasing the hold |
| `ReadinessEffects.SettingsEffect` | internal/readiness/registry.go:272-302 | Positive settings take over, and every gate a failure or a pause had armed is recomputed from its last attempt |
| `ReadinessEffects.SyncMemberEffect` | internal/readiness/registry.go:339-410 | Of one desired member: new, back from removal, moved scope, first known scope, or nothing |
| `ReadinessEffects.SyncInOrder` | internal/readiness/registry.go:328-339 | The desired members are taken one by one, in order |
| `ReadinessEffects.SyncEffect` | internal/readiness/registry.go:411-420 | Of the rest of a reload: what is not desired leaves in a new incarnation, out of service |
| `ReadinessEffects.SyncCounts` | internal/readiness/registry.go:411-420 | Each removal is announced once and each lost admission counted |
| `Backoff.Delay` | internal/readiness/registry.go:885-894 | With int64 wrap-around the delay is positive, at most BackoffMax, and at most RecoverMax when nothing serves |
| `Backoff.DelayExactly` | internal/readiness/registry.go:885-894 | The delay is min(base*2^min(streak-1,30), BackoffMax[, RecoverMax]) if and only if the shifted base fits int64, or wraps to nothing positive, or wraps to no less than the cap in force |
| `Backoff.SafeBaseExactly` | internal/readiness/registry.go:885-894 | A base gets that delay for every streak, both caps and every ready count if and only if each of its shifts up to 30 fits or wraps to nothing positive |
| `Backoff.DelayExact` | internal/readiness/registry.go:885-894 | Every base up to 2^34 ns does |
| `Backoff.DelayNotExactAbove` | internal/readiness/registry.go:885-894 | One nanosecond above it does not: the 31st failure waits about a second instead of the cap |
| `Backoff.DelayMonotone` | internal/readiness/registry.go:885-894 | With a safe base the delay never falls as the streak grows |
| `RegistryObject.Registry.UpdateSettings` | internal/readiness/registry.go:272-302 | Merges positive fields and re-arms every gate in place; the new content is the value function of the old |
| `RegistryObject.Registry.Sync` | internal/readiness/registry.go:328-422 | Adds, resurrects, flips and removes entries one by one; the new content is AfterSync of the old, whatever the order of removal |
| `RegistryObject.Registry.SyncMember` | internal/readiness/registry.go:339-410 | One desired member: new entry, resurrection, learned scope, flip, or nothing |
| `RegistryObject.Registry.Flip` | internal/readiness/registry.go:388-408 | A scope flip revokes admission, bumps the generation and records whether the relay served |
| `RegistryObject.Registry.Remove` | internal/readiness/registry.go:411-420 | A vanished identity moves to removing with a new generation and no admission |
| `RegistryObject.Registry.TakeScopeChanged` | internal/readiness/registry.go:431-441 | Reads and spends the marker, for the captured generation only |
| `RegistryObject.Registry.IsReady` | internal/readiness/registry.go:445-450 | Whether the relay has admission |
| `RegistryObject.Registry.Serving` | internal/readiness/registry.go:464-480 | Exactly the admissions of the serving entries |
| `RegistryObject.Registry.Begin` | internal/readiness/registry.go:542-557 | Grants the hold unless the entry is busy, creating a missing entry; the hold captures the object |
| `RegistryObject.Registry.BeginDelete` | internal/readiness/registry.go:564-578 | Grants it only for an idle entry labelled removing |
| `RegistryObject.Registry.Release` | internal/readiness/registry.go:548-556 | Frees the captured object, whatever stands under the key now |
| `RegistryObject.Registry.Current` | internal/readiness/registry.go:582-588 | The entry, only if its generation is the captured one |
| `RegistryObject.Registry.Allow` | internal/readiness/registry.go:594-601 | Whether the retry gate has passed; true for an unknown relay. What that holds back is ProtocolPasses.GateExact and GateKeepsOff |
| `RegistryObject.Registry.Enter` | internal/readiness/registry.go:624-645 | Labels a phase; discovery and verification never unlabel a paused relay, deploying resets streak and gate |
| `RegistryObject.Registry.Ready` | internal/readiness/registry.go:653-681 | Admits exactly the verified URL and key, clears streak, gate and both markers |
| `RegistryObject.Registry.Failing` | internal/readiness/registry.go:691-743 | Counts the miss and, by state and streak, keeps the pause, labels failed, tolerates, or revokes |
| `RegistryObject.Registry.Demote` | internal/readiness/registry.go:752-781 | Revokes at once and arms the gate of a spent streak |
| `RegistryObject.Registry.Pause` | internal/readiness/registry.go:790-810 | Revokes and arms the revival gate |
| `RegistryObject.Registry.DeferDrain` | internal/readiness/registry.go:820-828 | Sets the drain marker of the captured incarnation |
| `RegistryObject.Registry.DrainCompleted` | internal/readiness/registry.go:834-842 | Clears it |
| `RegistryObject.Registry.DeleteDone` | internal/readiness/registry.go:852-861 | Purges the entry if it is still removing in that generation |
| `RegistryObject.Registry.DeleteFailed` | internal/readiness/registry.go:867-877 | Counts the failure and arms the gate |
| `RegistryObject.Registry.BackoffGate` | internal/readiness/registry.go:885-894 | The gate is now plus the wrapped-around delay |
| `RegistryObject.Registry.Notify` | internal/readiness/registry.go:905-911 | Counts one notification and leaves one signal in the channel |
| `Inflight.Counter.Begin` | internal/gateway/gateway.go:724-740 | One more on that relay only; a channel somebody waits on is kept, a closed one replaced |
| `Inflight.Counter.End` | internal/gateway/gateway.go:742-753 | One less, whether or not a begin came first; an unknown relay is ignored; the channel is closed exactly while the count is not positive |
| `Inflight.Counter.ZeroChan` | internal/gateway/gateway.go:757-765 | Nothing exactly when the relay is idle, else the channel of its next idle moment, open unless unmatched ends drove the count below zero |
| `Inflight.IdentityKeyInjective` | internal/gateway/gateway.go:722-722 | Distinct relays have distinct counter keys as long as providers carry no slash |
| `Inflight.BeginRefines` | internal/gateway/gateway.go:724-740 | On relays, begin is the protocol's begin |
| `Inflight.EndRefines` | internal/gateway/gateway.go:742-753 | And end its end |
| `Failover.Relay` | internal/gateway/gateway.go:384-562 | The attempt loop with its counters and early returns emits exactly the events of the recursive specification, under arbitrary swaps between passes |
| `Failover.AcquireExact` | internal/gateway/gateway.go:356-384 | A buffered body is the whole body within the cap; refusal by size happens exactly with streaming off and beyond the largest buffer |
| `Failover.AttemptsBounded` | internal/gateway/gateway.go:404-421 | At most 17 attempts, at most one when streaming |
| `Failover.OnlyTheLast` | internal/gateway/gateway.go:486-552 | No attempt follows an answer or an abort |
| `Failover.ReplyClassified` | internal/gateway/gateway.go:555-562 | 413 exactly when the budget went to size skips alone, 502 exactly otherwise on exhaustion and then with the last real error, 503 exactly on an empty pick, nothing exactly on a client gone before any answer |
| `Failover.BeginEndMatched` | internal/gateway/gateway.go:424-507 | Begin and end alternate and match: a request holds at most one relay and none at the end |
| `Failover.OneResponse` | internal/gateway/gateway.go:384-562 | Exactly one response is written, or none when the client left before any answer |
| `Failover.HealthAccounted` | internal/gateway/gateway.go:449-553 | Over all requests a relay's failures are its missing answers plus its broken bodies, and broken bodies never outnumber counted answers |
| `FailoverPasses.ReplyByPass` | internal/gateway/gateway.go:461-562 | In terms of what the passes meet alone: nothing is written exactly when the client is gone and the relay gave no response; 413 when the budget is out and no pass was sent; 502 with the last error when one was; 503 without a relay; else the relay's response |
| `FailoverPasses.RecordedByPass` | internal/gateway/gateway.go:449-553 | A success is recorded exactly for a complete body with the client still there, a failure exactly for no response or a broken body with the client still there, and a begin and an end for every attempt; a pass without a response goes on to the next as long as client, budget and relays allow |
| `FailoverPasses.WrittenByPass` | internal/gateway/gateway.go:384-562 | The log writes exactly the reply owed, once, or nothing |
| `Failover.TooLargeExact` | internal/gateway/gateway.go:435-446 | Whatever cools down and whoever else picks between the passes, the reply is 413 exactly when the relays met within the budget all reject the size |
| `Failover.DocumentedRuleExact` | README.md:347-353 | The documented rule (413 only when no relay accepts) holds under every cooldown and every interleaving if and only if the relays of the selector all accept the size or all reject it; no retry budget makes up for a mixed pool |
| `Failover.RuleAloneExact` | README.md:347-353 | For one request alone on n healthy relays the rule holds for all limits and sizes if and only if the retry budget covers n |
| `RuntimeHealth.HealthClosedForm` | internal/pool/runtime.go:104-126 | The streak is the failures since the last completed response modulo the threshold; the cooldown runs from the latest of them that was a multiple, and there is none otherwise |
| `RuntimeHealth.HealthyExactly` | internal/pool/runtime.go:85-89 | A relay is up exactly when no failure since its last completed response completed a run of the threshold, or the latest that did is more than a cooldown ago |
| `RuntimeHealth.TotalsExact` | internal/pool/runtime.go:104-126 | The failure total never resets; the last error is the latest failure's, and none after a completed response |
| `RuntimeHealth.RelayState.RecordSuccess` | internal/pool/runtime.go:104-110 | Clears streak, cooldown and error |
| `RuntimeHealth.RelayState.RecordFailure` | internal/pool/runtime.go:116-126 | Counts, and trips the cooldown at the threshold |
| `RuntimeHealth.RuntimeState.Attach` | internal/pool/runtime.go:163-176 | The endpoint's own record, or a clean one; entries and owners stay in bijection, and the content is the identity map updated |
| `RuntimeHealth.RuntimeState.Prune` | internal/pool/runtime.go:186-208 | Keeps exactly the desired identities and the cursors that can still occur |
| `RuntimeHealth.CursorsKept` | internal/pool/runtime.go:196-208 | A cursor is kept exactly when it is the shared one or its provider still has a desired relay |
| `RuntimeHealth.RuntimeState.CursorFor` | internal/pool/runtime.go:217-223 | The next position, and the cursor moved past it |
| `RuntimeHealth.ReattachedExactly` | internal/pool/runtime.go:163-208 | Health is re-attached if and only if the endpoint key is unchanged and the identity stayed desired throughout |
| `RuntimeHealth.ConsecutivePositions` | internal/pool/runtime.go:210-223 | The picks of one selector meet consecutive positions, whatever happens on other selectors and however often the pool is rebuilt |
| `RuntimeHealth.RotationFair` | internal/pool/pool.go:220-263 | Out of m picks each of n relays is chosen floor(m/n) or ceil(m/n) times |
| `Rotation.HitsExact` | internal/pool/runtime.go:217-223 | The exact number of hits of a position after m picks |
| `ServingPool.Pool.Pick` | internal/pool/pool.go:228-250 | Rotates over the healthy candidates, or all of them when none is healthy; nothing when nothing matches |
| `ServingPool.PickMeets` | internal/pool/pool.go:228-250 | The relay picked is the one the positions, the cooldowns and the cursor determine |
| `ServingPool.PinnedRuleHolds` | cmd/http-relay-gateway/main.go:404-444 | A provider pin selects relays of one body limit, so there the documented 413 rule holds whatever the cooldowns, the interleavings and the budget |
| `ServingPool.UsableExact` | internal/pool/pool.go:233-246 | What may be picked: matching relays, none on cooldown while another is not |
| `ServingPool.UsableByHistory` | internal/pool/pool.go:233-246 | By the relays' histories: what may be picked of a selector is up, or every relay of the selector is down |
| `ServingPool.NoneUsable` | internal/pool/pool.go:247-249 | A pick is nil if and only if no relay matches |
| `ServingPool.NewAttached` | internal/pool/pool.go:184-208 | One relay per input in order, each with the record the runtime state holds for its endpoint |
| `ServingPool.GenerationOwned` | internal/pool/pool.go:184-208 | With distinct identities no relay of a generation displaces another's record |
| `ServingPool.BuildInputs` | cmd/http-relay-gateway/main.go:396-444 | Malformed URLs are skipped, order is kept, and the buffer is the largest limit of the pool |
| `ServingPool.InputsExact` | cmd/http-relay-gateway/main.go:404-444 | An input is in the list exactly when some well-formed served relay is shown by it field by field: provider, name, parsed URL, relay key and its fingerprint, scope fingerprint, limit and incarnation |
| `ServingPool.InputsInOrder` | cmd/http-relay-gateway/main.go:404-444 | One input per well-formed relay, none for another, in the order of the list |
| `ServingProof.PoolIsBuilt` | cmd/http-relay-gateway/main.go:396-444 | The protocol's pool is the pool that is built: a relay is in it exactly when an input is its own, and that one carries its admission |
| `ServingProof.BuiltIsVerified` | cmd/http-relay-gateway/main.go:396-444 | In every run the URL and the relay key of every relay the installed pool was built with passed a verification of that relay in that incarnation, whose admission stood at the snapshot |
| `ServingPool.EntryRefusalHonest` | internal/gateway/gateway.go:371-384 | A body refused by size before any attempt is beyond every relay of the pool |
| `Sse.Heartbeat.Fire` | internal/deploy/workers/core.js:113-125 | A timer callback, armed or stale, inserts a comment and re-arms while the stream is open and does nothing after |
| `Sse.Heartbeat.Transform` | internal/deploy/workers/core.js:136-140 | A chunk passes and re-arms the timer |
| `Sse.Heartbeat.Flush` | internal/deploy/workers/core.js:141-143 | The end stops the timer |
| `Sse.Heartbeat.Cancel` | internal/deploy/workers/core.js:144-146 | So does a cancel |
| `Sse.BytesInOrder` | internal/deploy/workers/core.js:104-147 | Under every interleaving, deleting the inserted comments leaves the upstream bytes in order up to the closure |
| `Sse.MarkerFirst` | internal/deploy/workers/core.js:128-135 | The early-open marker comes first and only once |
| `Sse.NothingAfterClosure` | internal/deploy/workers/core.js:117-122 | Nothing follows closure |
| `SseWire.OutputExact` | internal/deploy/workers/core.js:104-147 | The output is the lead and then one piece per chunk and per heartbeat, in order, until the closure |
| `SseWire.ArmedExact` | internal/deploy/workers/core.js:113-147 | The timer is armed from the start, through every chunk and heartbeat, until the stream ends, is cancelled or is found broken |
| `SseWire.ReadBack` | internal/deploy/workers/core.js:20-30 | The reader the client is modelled by is the standard's: whatever messages are written by its rules are dispatched as meant (section 9.2.6 of the HTML Living Standard) |
| `Sse.SameEvents` | internal/deploy/workers/core.js:20-30 | With every comment at an event boundary and none in front of a byte order mark the client dispatches exactly the upstream's events (section 9.2.6 of the HTML Living Standard) |
| `Sse.MarkExact` | internal/deploy/workers/core.js:214-218 | A comment in front of a byte order mark goes unnoticed by every continuation of the first line if and only if that line is no effective data, event or id field |
| `Sse.BoundaryExact` | internal/deploy/workers/core.js:104-125 | A comment goes unnoticed by every continuation if and only if it lies at an event boundary |
| `Sse.HeartbeatSplitsEvent` | internal/deploy/workers/core.js:115-125 | A run in which a comment falls into an event under way and the client dispatches two events for one |
| `Sse.BOMSpoils` | internal/deploy/workers/core.js:214-218 | On the early-open path the marker does come first: an origin that starts with a mark and a data line loses that event |
| `Sse.EarlyStream.Pull` | internal/deploy/workers/core.js:250-267 | One pull: error on a failed fetch, close on a missing body, else one read passed on |
| `Sse.EarlyStreamFaithful` | internal/deploy/workers/core.js:248-276 | The chunks arrive in order, and a failed fetch or a broken body never looks like a clean end |
| `Sse.TokensMatch` | internal/deploy/workers/core.js:195-205 | True exactly for equal strings, in as many steps as the longer one has characters whatever they are |
| `Sanitize.TokenEndIndex` | internal/sanitize/sanitize.go:159-169 | The end of the URL token that starts there |
| `Sanitize.RedactUserinfo` | internal/sanitize/sanitize.go:73-95 | The rewriting loop terminates and computes the recursive specification |
| `Sanitize.RedactClean` | internal/sanitize/sanitize.go:69-95 | In the result every URL token's text before its last @ is the redaction mark |
| `Sanitize.RedactExact` | internal/sanitize/sanitize.go:69-95 | It changes a string if and only if some token still carries userinfo, and is idempotent |
| `SanitizeForms.UserinfoReplaced` | internal/sanitize/sanitize.go:69-95 | The first URL's text up to its token's last @ is replaced by the mark, and what is before and behind it is kept |
| `SanitizeForms.NoUserinfoKept` | internal/sanitize/sanitize.go:69-95 | A first URL without an @ in its token is kept; tokens end at blanks, controls, quotes, angle brackets and backticks |
| `Sanitize.QuotedTokenEnd` | internal/sanitize/sanitize.go:147-157 | The closing quote, honouring escapes, or none |
| `SanitizeForms.CloseExact` | internal/sanitize/sanitize.go:147-157 | A token closes at the first quote with an even number of backslashes before it, and nowhere else |
| `Sanitize.StripQuotedURLs` | internal/sanitize/sanitize.go:104-126 | The rewriting loop terminates and computes the recursive specification |
| `Sanitize.StripExact` | internal/sanitize/sanitize.go:97-126 | The result has the same bare text and the same tokens in order, except that every token with a URL is blank |
| `Sanitize.StripClean` | internal/sanitize/sanitize.go:97-126 | No quoted token of the result holds a URL; a string is changed if and only if one did; idempotent |
| `Sanitize.StripANSI` | internal/sanitize/sanitize.go:196-248 | The loop computes the recursive specification |
| `Sanitize.ANSIGone` | internal/sanitize/sanitize.go:196-248 | No ESC survives, and a string is changed if and only if it has one |
| `SanitizeForms.SequenceDropped` | internal/sanitize/sanitize.go:196-248 | Every escape sequence, by the grammar of its kind, goes whole and nothing else with it |
| `SanitizeForms.TextKept` | internal/sanitize/sanitize.go:196-248 | Text without ESC stays |
| `SanitizeForms.UnfinishedDropped` | internal/sanitize/sanitize.go:196-248 | A sequence the text ends in goes with it |
| `Sanitize.CleanControls` | internal/sanitize/sanitize.go:175-194 | Decodes rune by rune, turns line breaks and tabs into spaces and drops other controls |
| `SanitizeForms.CalmForm` | internal/sanitize/sanitize.go:175-194 | Rune by rune: line breaks and tabs become a space, other C0 controls and DEL go, everything else stays |
| `SanitizeForms.ShortcutForm` | internal/sanitize/sanitize.go:37-59 | The shortcut, exactly: a text of at most 512 bytes with no control, no URL and none of the four address words comes back as it is, any other goes through every stage |
| `SanitizeForms.BoundedForm` | internal/sanitize/sanitize.go:250-255 | At most 512 characters stay as they are; of more, the first 512 and an ellipsis |
| `Sanitize.Sanitize` | internal/sanitize/sanitize.go:30-35 | The pipeline, or the string itself on the fast path |
| `Sanitize.SanitizedSafe` | internal/sanitize/sanitize.go:30-59 | On every string, on both paths, whatever the dial rewriting does: at most 513 characters and no C0 control or DEL |
| `Sanitize.FastPathSound` | internal/sanitize/sanitize.go:37-59 | Skipping every stage changes nothing on well-formed text that the dial rewriting leaves alone |
| `SanitizedText.StagedRedacted` | internal/sanitize/sanitize.go:69-126 | What the two redacting stages hand on has no userinfo and no quoted URL, on every string |
| `SanitizedText.OutputRedacted` | internal/sanitize/sanitize.go:30-59 | If what the dial rewriting hands on is still redacted and has no control but line breaks and tabs, so is the whole output: malformed UTF-8, the length bound and the shortcut undo nothing |
| `SanitizedText.RedactedExactly` | internal/sanitize/sanitize.go:27-35 | Without dial addresses to rewrite, the output is redacted for every text whose controls are among an allowed set if and only if those are line breaks and tabs |
| `SanitizedText.ApartAssembled` | internal/sanitize/sanitize.go:175-194 | For each other control (an escape included) a text it holds apart: dropping it last assembles a URL with its userinfo |
| `Bytes.DecodeEncode` | internal/sanitize/sanitize.go:181-193 | UTF-8 encoding loses nothing |
| `Bytes.DecodeOneExact` | internal/sanitize/sanitize.go:181-193 | The decoder reads the character a text starts with; where none starts, one invalid byte is read as U+FFFD |
| `Config.ProjectName` | internal/deploy/deploy.go:197-218 | The builder loop computes the slug |
| `Config.SlugIsSlug` | internal/deploy/deploy.go:193-218 | Every name gets 1 to 40 characters of [a-z0-9-] with no leading, trailing or doubled dash |
| `Config.SlugExact` | internal/deploy/deploy.go:193-218 | The slugs are exactly the fixed points; slugging is idempotent |
| `Config.SlugWords` | internal/deploy/deploy.go:193-218 | A slug is the lower-cased name's runs of letters and digits joined by single dashes, cut at 40 without a dash at the cut, and never empty |
| `Config.Parse` | internal/config/config.go:294-329 | Accepts exactly the files whose entries pass their checks and have distinct names and distinct (provider, project) pairs; a rejection names the first entry that does not fit, with a complaint that is true of it: the earlier entry it names really clashes |
| `Config.ProjectsInjective` | internal/config/config.go:317-326 | An accepted configuration maps its relays injectively to (provider, project) |
| `Config.InRangeExactly` | internal/config/config.go:539-571 | The range checks accept exactly the settings no registry replaces by a fallback, with an ordered backoff and at most 16 retries |
| `Config.AcceptedSettingsStand` | internal/config/config.go:539-571 | Accepted settings reach the registry unchanged, whatever it ran with, and bound the attempt loop |

## Left out

- Protocol: `apply`, `settle`, `pass`, `ensureRelay`, `rollout` and `runDeletes` are modelled as atomic steps of a state machine rather than as methods, because they interleave; a wait that has to go on is a step that changes nothing, and time-outs are choices of the environment.
- Protocol: registry reloads may interleave with holds when `sequential` is false, which is more than one worker process does; with `sequential` true passes run one after the other as in the program. Every statement that needs the stronger discipline says so.
- Protocol: the credential memo, the shared shutdown budget, the per-platform lock and the parallelism bounds of a pass are not modelled; any number of workers may run.
- Protocol: platform calls and probes are choices of the environment with a start and an end; a verdict is an arbitrary value and its application a later step.
- Readiness: generations, notification counts and counters are unbounded instead of 64-bit; the order of `Serving` and the `Snapshot`, `StateOf` and `GenerationOf` read-outs are left out.
- Readiness: fingerprints are an arbitrary function of the scope; nothing depends on their being distinct.
- Failover.TooLargeExact: the relays of the selector stay the same during one request; Failover.Relay itself allows a pool swap between passes.
- Failover.Relay: header filtering, request construction and the copy loop are outcomes of the environment; the 503 of an empty entry pool and the provider pin parsing are left out.
- RuntimeHealth.RelayState.RecordFailure: the threshold is positive, as an accepted configuration guarantees; the stored error text is not sanitized again here.
- ServingPool.NewAttached: the standalone pool without runtime state, used by helpers only, is left out.
- Sse.SameEvents: the stream is parsed as bytes; all delimiters are ASCII, so decoding first makes no difference. The retry field and reconnection are left out.
- Sse.Heartbeat.Fire: a callback may run at any time, also after its timer was cleared, which is more than a runtime does.
- Sse: the header-only decisions (`withSSEHeartbeat`, `acceptsEventStream`, the interval readers) would only add easy members.
- Sanitize.SanitizedSafe: the regular expressions of the dial-address stage are an arbitrary function.
- SanitizedText.RedactedExactly: states the pipeline without dial addresses; with them SanitizedText.OutputRedacted takes what that stage hands on as given.
- Config.SlugExact: lower-casing is an arbitrary function that leaves lower-case ASCII slugs alone.
- Config.Parse: YAML decoding, secret interpolation and an entry's own checks come before it; an entry arrives as their result.
- Platform clients, the listener, `/stats` and `/readyz` rendering, logging, file polling, signals and the subcommands have no hard property.
