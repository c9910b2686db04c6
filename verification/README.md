# Models of the bridge's control plane

A Dafny model of the always-on parts of the Nest-to-ONVIF bridge and of what they promise: the command
scheduler that keeps every camera inside Google's quotas, the RTSP publisher, the session manager with its renewal
observer, the supervisor's restart loop, and the motion pipeline from a detection to an ONVIF subscriber.
`dafny verify dfyconfig.toml` checks the whole project.

The models come in two forms, joined by specification functions.

- **In place.** Code that updates fields is a class whose methods update the same fields: `Scheduler.Scheduler` with
  `WaiterHeap.WaiterQueue` (the binary heap with back-pointers) and `Scheduler.Prune` (the slice compacted over its
  own array), `Publisher.Publisher`, `RenewalObserver.Observer`, `SessionManager.Manager`, `MotionTracker.Tracker`,
  `MotionDispatcher.CameraQueue`, `PullPoint.EventsService`. Each locked section is proved equal to a function of the old state; a loop around locked
  sections is proved against what it must leave.
- **Interleaved.** Code that runs on several goroutines is a step system over those functions, in which every locked
  section or channel operation is one step: `SchedulerProtocol`, `ObserverProtocol`, `PublisherProtocol`,
  `MotionPipeline`, `SinkTotals`. The promises are lemmas over every run, of any length, with any number of
  goroutines.

The session manager runs on one goroutine, and its promises are about order. Its environment, `SessionManager.World`,
chooses every outcome and keeps the trace of what the manager did. `Manager.Run` is proved to produce only traces that
keep the rules of `SessionTrace.Allowed`, and the promises are lemmas over all such traces.

| files | source |
|---|---|
| `Quota`, `Windows`, `Ledger`, `WaiterHeap`, `Slot`, `Scheduler`, `SchedulerProtocol`, `SchedulerQuotas`, `SchedulerRuns` | `internal/scheduler/scheduler.go` |
| `Publisher`, `PublisherProtocol`, `PublisherRuns` | `internal/media/publisher.go` |
| `RenewalObserver`, `ObserverProtocol`, `SessionTrace`, `SessionManager`, `SinkTotals` | `internal/session/manager.go` |
| `MotionTracker`, `MotionDispatcher`, `MotionPipeline` | `internal/events/motion.go` |
| `PullPoint` | `deploy/onvif/events-service.js` |
| `Supervisor` | `internal/supervisor/supervisor.go` |

Assumptions: the clock never goes back, and a `Sleep(d)` that completes lasted at least d. Times and durations are
integers in nanoseconds (milliseconds in `PullPoint`). Go's zero `time.Time` is `None`.

Where a comment and the code differ, the models follow the code:

- `DrainRenewalObserver` is documented to return the number still undelivered. A second drain can return 0 although the
  first one dropped events (`ObserverProtocol.SecondDrainMayReturnZero`). `ObserverProtocol.DrainReturnsUndelivered`
  says when the number is right: if and only if no drain had given up before with events still queued.
- `Tracker.Handle` and `Tracker.Sweep` decide an edge under the lock and emit it after releasing the lock. Emitted out of
  order, the edges leave the ONVIF service showing the wrong level (`MotionPipeline.OutOfOrderEmissionSticks`).
  Rises are sent by the subscriber's loop (`internal/events/subscriber.go:296`) and falls by the sweep's, each one at a
  time. `MotionPipeline.ServiceShowsLastSent` says when the service is right: if and only if the edge sent last is the
  edge decided last.
- The supervisor's first delay is not capped, so the delays it sleeps are `min(Max, Restart * 2^j)` if and only if
  `RestartDelay <= MaxRestartDelay` (`Supervisor.DelaysAreCappedPowers`).
- The floor of one in `NoteRateLimited` cannot be reached: the rate is already at least one.

## Model

| member | source | states |
|---|---|---|
| Quota.RecoveryClosedForm | internal/scheduler/scheduler.go:175-195 | After recovery the rate is the last rate doubled once per quiet interval and capped at GlobalQPM, and it stays in [1, GlobalQPM] |
| Quota.RecoveredExactly | internal/scheduler/scheduler.go:175-195 | Less than one interval after a 429 the rate is unchanged; after k full intervals and less than k + 1 it has doubled k times, up to GlobalQPM |
| Quota.HalvedExactly | internal/scheduler/scheduler.go:159-173 | A 429 leaves half of what the rate had recovered to, but at least one, and starts the quiet time anew |
| Quota.RecoveryPathIndependent | internal/scheduler/scheduler.go:175-195 | Recovering at t1 and again at t2 leaves the same rate and timestamp as recovering once at t2, so the rate does not depend on who looks at it when |
| Quota.QuietRestoresFully | internal/scheduler/scheduler.go:159-195 | From any rate, k quiet intervals with 2^k >= GlobalQPM after a 429 restore the full rate |
| Windows.EndingWindowsBoundAllWindows | internal/scheduler/scheduler.go:197-205 | If the window ending at every call is within a limit, so is every half-open window of that length, wherever it is placed |
| Ledger.WaitIsExact | internal/scheduler/scheduler.go:207-246 | waitFor returns zero if and only if both windows have room now; at the rate it saw there is no room at any instant before the wait is over |
| Ledger.WaitEndsOnTime | internal/scheduler/scheduler.go:234-245 | A wait ends at the instant the first call of a full log leaves its window, when every full log has lost its first call: it is the longer of the two waits and no more |
| Ledger.WaitShrinksLogs | internal/scheduler/scheduler.go:207-293 | A completed wait strictly shrinks the two logs it was computed from, which is why a lone caller's loop ends |
| Ledger.DeviceCallsPruned | internal/scheduler/scheduler.go:213-232 | The hourly sweep and the single-device prune leave a device exactly its calls within the hour |
| WaiterHeap.RootIsLeast | internal/scheduler/scheduler.go:81-90 | No waiter in a heap has a lower priority value than the root, nor the same one and a smaller seq |
| WaiterHeap.SiftUpKeepsOrder | internal/scheduler/scheduler.go:81-95 | Swapping a waiter with the parent it comes before moves the one broken place up and breaks no other |
| WaiterHeap.SiftDownKeepsOrder | internal/scheduler/scheduler.go:81-95 | Swapping a waiter with its lesser child moves the one broken place down and breaks no other |
| WaiterHeap.WaiterQueue.HeapPush | internal/scheduler/scheduler.go:97-101 | heap.Push adds exactly the new waiter and keeps heap order and every back-pointer |
| WaiterHeap.WaiterQueue.HeapPop | internal/scheduler/scheduler.go:103-111 | heap.Pop takes out exactly one waiter, of the lowest priority value and among those of the smallest seq, and keeps heap order and every back-pointer |
| WaiterHeap.WaiterQueue.HeapRemove | internal/scheduler/scheduler.go:315-321 | heap.Remove at w.index takes out exactly that waiter and keeps heap order and every back-pointer |
| Scheduler.Prune | internal/scheduler/scheduler.go:197-205 | Compaction over the slice's own array keeps exactly the calls after the cutoff, in order |
| Scheduler.Scheduler.RecoverRate | internal/scheduler/scheduler.go:175-195 | The doubling loop equals the closed recovery function |
| Scheduler.Scheduler.CurrentQPM | internal/scheduler/scheduler.go:151-157 | The reported ceiling is the last rate without a full quiet interval, and min(GlobalQPM, q * 2^k) after k of them |
| Scheduler.Scheduler.NoteRateLimited | internal/scheduler/scheduler.go:159-173 | A 429 leaves half the rate that k full quiet intervals had restored, never less than one, and is remembered at its own time |
| Scheduler.Scheduler.WaitFor | internal/scheduler/scheduler.go:207-246 | The recovery, both prunings, the sweep and the wait in place, over slices that share no array, equal their specification |
| Scheduler.Scheduler.Admit | internal/scheduler/scheduler.go:272-281 | A call is recorded in both logs if and only if no wait is due; otherwise only the pruning remains |
| Scheduler.Scheduler.Acquire | internal/scheduler/scheduler.go:295-310 | The first acquire numbers the waiter, a later one keeps its number; it owns the slot if nobody held it and else is queued, and nothing else moves: the same function of the slot as the interleaved step |
| Scheduler.Scheduler.CancelWait | internal/scheduler/scheduler.go:315-327 | A cancelled waiter takes exactly itself out of the queue if and only if it has not been granted the slot |
| Scheduler.Scheduler.Release | internal/scheduler/scheduler.go:331-341 | release hands the slot to the queued waiter of the lowest priority value and among those of the smallest seq, or frees it when there is none |
| Scheduler.Scheduler.DoAlone | internal/scheduler/scheduler.go:248-293 | Do terminates for a caller nobody competes with, its call recorded at an instant both windows had room, and the slot free |
| SchedulerProtocol.SlotStep | internal/scheduler/scheduler.go:250-341 | Every step of any number of callers keeps exactly one owner while holder is true and none while it is false, with a cancellation racing a grant included |
| SchedulerRuns.ExactlyOneOwner | internal/scheduler/scheduler.go:250-341 | In every reachable state the slot is neither duplicated nor lost, and a non-empty queue has an owner to serve it |
| SchedulerRuns.ReleaseIsEnabled | internal/scheduler/scheduler.go:331-341 | A caller about to release can always do so: the queue is empty or has a strictly first waiter |
| SchedulerQuotas.QuotaStep | internal/scheduler/scheduler.go:197-246 | Every step keeps the pruned logs in agreement with the full admission history and both quota limits |
| SchedulerRuns.MinuteBound | internal/scheduler/scheduler.go:197-246 | Over every run no half-open minute, wherever it is placed, holds more than GlobalQPM admissions |
| SchedulerRuns.HourBound | internal/scheduler/scheduler.go:197-246 | Over every run no half-open hour holds more than DeviceQPH admissions of one device |
| SchedulerRuns.EffectiveRateBound | internal/scheduler/scheduler.go:234-239 | The minute ending at an admission holds at most the effective rate of that moment |
| SchedulerRuns.AdmitsExactlyWithRoom | internal/scheduler/scheduler.go:272-281 | A check admits its caller if and only if, in the whole history, the minute up to now holds fewer admissions than the rate then in force and the hour fewer of its device than DeviceQPH |
| SchedulerRuns.BlockedUntilRoom | internal/scheduler/scheduler.go:234-245 | A caller not admitted waits until every full log has lost its first call, and not longer |
| SchedulerRuns.SleepsItsWait | internal/scheduler/scheduler.go:283-288 | It sleeps that wait out, outside the queue, before it may queue again |
| SchedulerRuns.RateLimitedHalves | internal/scheduler/scheduler.go:159-173 | Over every run a 429 leaves half of what the rate had recovered to, but at least one |
| SchedulerRuns.LogsRefineHistory | internal/scheduler/scheduler.go:197-232 | Inside every open window the pruned logs are the full history, in order; the global log stays within GlobalQPM and device lists between 1 and DeviceQPH |
| SchedulerRuns.IdleDevicesForgotten | internal/scheduler/scheduler.go:213-232 | After any waitFor every device still on record has a call within the last two hours |
| SchedulerRuns.NeverPassed | internal/scheduler/scheduler.go:85-90 | While a waiter stays queued, every caller that takes the slot has a lower priority value, or the same one and a number handed out before the waiter's, quota-blocked requeuers included |
| SchedulerRuns.RenewalNotPassed | internal/scheduler/scheduler.go:25-34 | A queued renewal is passed by no connect, and only by renewals that first acquired before it |
| Publisher.AnnounceWithRetry | internal/media/publisher.go:382-415 | At most three clients are tried, every one but the client returned is closed exactly once, and it gives up only after three failures or on close |
| Publisher.Publisher.Write | internal/media/publisher.go:149-215 | WriteRTP's locked section in place, up to its end or its announce, equals its step function |
| Publisher.Publisher.Resume | internal/media/publisher.go:215-255 | WriteRTP from the end of its announce on; a client started after Close is closed once and not installed |
| Publisher.Publisher.GraceExpires | internal/media/publisher.go:327-343 | The grace timer announces only when nothing is announced, announcing or closed and video is known |
| Publisher.Publisher.Close | internal/media/publisher.go:440-456 | Close closes the installed client once, however often it is called |
| PublisherProtocol.InvStep | internal/media/publisher.go:166-456 | Every step of any number of writers, the grace timer and Close, with the announce outside the lock, keeps the publisher's invariant |
| PublisherRuns.AnnouncedAtMostOnce | internal/media/publisher.go:354-415 | At most one announce is in flight and at most one client is ever started; every client is in the announcer's hands, installed and open, or closed exactly once |
| PublisherRuns.SendsOnlyToOpenClient | internal/media/publisher.go:240-254 | A packet reaches only the installed client, started and not closed |
| PublisherRuns.NoPacketAfterClose | internal/media/publisher.go:166-172 | After Close no packet reaches any client, however late a writer arrives |
| PublisherRuns.DescriptionIsKnownMedia | internal/media/publisher.go:417-438 | The description lists exactly the known media, video first; announced or announcing it has video, and lacks wanted audio only after the grace period |
| PublisherRuns.DescriptionFrozen | internal/media/publisher.go:189-197 | The description does not change while an announce runs, nor ever once one has succeeded |
| PublisherRuns.MediumNeverAbsent | internal/media/publisher.go:225-230 | No run ever rejects a packet because its medium is absent from the description |
| PublisherRuns.CallsAreCounted | internal/media/publisher.go:149-260 | The four counters add up to the WriteRTP calls made, less the one call that is announcing |
| PublisherRuns.StepBumpsItsOutcome | internal/media/publisher.go:149-260 | A step bumps the one counter of the call it ends, and no other |
| PublisherRuns.ForwardsByPayloadType | internal/media/publisher.go:225-254 | Once announced, a packet of a known track reaches the client if and only if its payload type is its medium's, and is published, dropped or failed as the client answers; any other payload type is a failure |
| PublisherRuns.OtherwiseByState | internal/media/publisher.go:149-223 | Every other call is discarded exactly when the publisher is closed, the audio unwanted, or the announce still to come or running; it begins the announce exactly when every expected track is known or the grace over and nobody announces; and else it fails |
| PublisherRuns.AnnounceBeginsForPacket | internal/media/publisher.go:199-217 | The writer that begins the announce starts its first client, for the medium of its own packet |
| PublisherRuns.FirstPacketAddsMedium | internal/media/publisher.go:189-197 | A track's first wanted packet before any announce makes its medium known with that packet's payload type, and no other packet changes a medium |
| PublisherRuns.AnnounceEndsForPacket | internal/media/publisher.go:215-255 | Back from its announce a writer fails without a client, discards after Close with the client closed once, and else installs the client and forwards its packet by payload type |
| PublisherRuns.GraceAnnouncesWithVideo | internal/media/publisher.go:327-346 | The grace timer announces exactly when nothing is announced, announcing or closed and video is known |
| PublisherRuns.GivesUpAfterThree | internal/media/publisher.go:382-415 | An announcer retries after its first two failures and gives up after the third |
| RenewalObserver.Observer.Emit | internal/session/manager.go:300-316 | emitRenewal in place: a new channel per busy period, the event queued, a worker started only if none runs |
| RenewalObserver.Observer.Finish | internal/session/manager.go:341-347 | The channel closed at the end of a busy period is open, so the close cannot panic |
| RenewalObserver.Observer.Abandon | internal/session/manager.go:368-384 | An expired drain returns what is pending, drops what is queued and leaves the callback in flight pending |
| ObserverProtocol.InvStep | internal/session/manager.go:300-385 | Every step of emitters, workers and drainers keeps one worker, exact accounting and one close per busy period |
| ObserverProtocol.OneAtATimeInOrder | internal/session/manager.go:300-350 | Callbacks run one at a time in the order accepted, pending is queued plus in flight, and a queued event always has a worker |
| ObserverProtocol.AcceptsUnlessSealed | internal/session/manager.go:300-312 | An event is accepted if and only if an observer is installed and no drain has begun, whether or not a worker runs |
| ObserverProtocol.TakesOldest | internal/session/manager.go:318-332 | A worker takes the oldest queued event, and leaves only when there is none or a drain has given up |
| ObserverProtocol.DrainedClosedOnce | internal/session/manager.go:306-308 | Each busy period's channel is closed exactly once, when the period ends |
| ObserverProtocol.DrainReturnsUndelivered | internal/session/manager.go:352-385 | A drain returns accepted minus finished, less what an earlier drain dropped: exact if and only if no drain gave up before with events still queued |
| ObserverProtocol.SecondDrainMayReturnZero | internal/session/manager.go:364-384 | Two drains at once: the second returns 0 although an accepted event was never delivered |
| SessionTrace.WaitEndsBeforeExpiry | internal/session/manager.go:394-408 | The computed wait ends before the session does, within three minutes and with two fifths of its lifetime left, and no later than a longer-lived session's wait |
| SessionTrace.WaitIsThreeFifths | internal/session/manager.go:394-408 | The wait is zero without an expiry to come, else three fifths of the remaining lifetime to the nanosecond below, and three minutes from there on |
| SessionTrace.WaitsOnLatestExpiry | internal/session/manager.go:636-640 | Over every trace, each wait for a renewal is for the expiry in the last reply that granted or extended the session |
| SessionTrace.ExtendsAfterWait | internal/session/manager.go:636-676 | Each extension is asked for under the session's latest id, once a wait of its own has run its course |
| SessionTrace.EventReportsExtension | internal/session/manager.go:641-692 | Each event handed to the observer reports the extension just before it, with success and failure class as its reply has them |
| SessionTrace.EveryExtensionReported | internal/session/manager.go:641-692 | Every extension that ran is reported exactly once |
| SessionTrace.BackoffIsCappedPower | internal/session/manager.go:410-422 | The shift cut off at six failures is min(60 s, 2^(n-1) s) for every n |
| SessionTrace.NthFailureWaits | internal/session/manager.go:424-460 | Over whole runs, the nth failure since the last renewal waits min(60, 2^(n-1)) seconds, or max(1 s, Retry-After) when the last command refused within that same attempt carried one |
| SessionTrace.FailuresCounted | internal/session/manager.go:447-450 | The failure count is the failures since the last successful renewal, and nothing else resets it |
| SessionTrace.CauseIsOwn | internal/session/manager.go:462-566 | The error a backoff goes by is that of the last command refused within its own attempt, or an ordinary one when none was |
| SessionTrace.AttemptsFailAndSleep | internal/session/manager.go:436-460 | Every attempt but one under way has been counted as a failure once, and every failure but the last has been slept off once |
| SessionTrace.BackoffBetweenAttempts | internal/session/manager.go:436-460 | Between any two attempts there is a backoff |
| SessionTrace.StopTriedOnceUnderLatestId | internal/session/manager.go:549-629 | In a finished run every session obtained enters stopRemote exactly once, before another is obtained, under the latest id an extension gave it |
| SessionTrace.StopAnswersSession | internal/session/manager.go:619-629 | Every stopRemote answers the session obtained last before it, under that session's latest id |
| SessionTrace.StopsBalanceSessions | internal/session/manager.go:549-766 | Sessions obtained less entries into stopRemote is none or one, the session held; every 429 is noted to the scheduler exactly once |
| SessionManager.Manager.CountersAreCalls | internal/session/manager.go:696-720 | Between attempts, succeeded plus failed is the Generate and the Extend calls that ran, connections succeeded is the sessions obtained and the stopRemote calls, unsupported plus rate-limited is at most the failed renewals, and every 429 has been noted |
| SessionManager.Manager.Run | internal/session/manager.go:435-460 | Run returns only once its context is cancelled; its whole trace keeps the rules, its counters equal the calls made, every session obtained has been through stopRemote, and no peer connection or sink is left open |
| SessionManager.Manager.RunOnce | internal/session/manager.go:462-566 | An attempt always ends in an error, the one its backoff goes by, with everything it opened released |
| SessionManager.Manager.Connect | internal/session/manager.go:520-566 | Each Generate call that ran is counted once, and a session obtained always goes through stopRemote |
| SessionManager.Manager.RenewLoop | internal/session/manager.go:631-694 | Each extension uses the session's latest id and waits on its latest expiry, and the loop ends only when something failed |
| SessionManager.Manager.Renew | internal/session/manager.go:641-692 | One pass of the loop: the outcome is counted and reported once, a missing id keeps the old one, and only success resets the failures |
| SessionManager.Manager.StopRemote | internal/session/manager.go:619-629 | The deferred stop uses the id the session has by then |
| SinkTotals.ReportsNeverDecrease | internal/session/manager.go:274-284 | What SinkStats reports never decreases across reconnects, with writes that outlive their connection included |
| SinkTotals.ReportedOnce | internal/session/manager.go:471-483 | Every packet any sink counted is reported exactly once, save those counted after its connection retired it |
| SinkTotals.ReportsCountWrites | internal/session/manager.go:93-107 | Each of the four counters reported, with the late writes it misses, is the number of writes that ended that way |
| SinkTotals.GuardedSink.Close | internal/session/manager.go:143-156 | The inner sink is released by the first close only, if it can be |
| SinkTotals.GuardedSink.WriteRTP | internal/session/manager.go:136-141 | A write after close reaches nothing and reports no error |
| SinkTotals.LateWritesHadPassed | internal/session/manager.go:136-156 | With writes and closes interleaving, the writes that enter the inner sink after the closed flag is set are exactly among those that had passed the check before |
| SinkTotals.ReleasedOnce | internal/session/manager.go:147-156 | However many closes race through the once, the inner Close is called at most once, and has been called and come back before any of them returns |
| MotionTracker.MaximumRefinesEveryHold | internal/events/motion.go:117-122 | Over every run, one maximum deadline per camera raises and lowers the level exactly as keeping every hold separately would, whatever the clock does |
| MotionTracker.EdgesAlternate | internal/events/motion.go:105-175 | The edges decided over any run of one camera, a rise by Handle when the level is down and a fall by Sweep when it is due, alternate from a rise, and the last one is the level |
| MotionTracker.Tracker.DecidedAlternate | internal/events/motion.go:105-175 | Over everything a tracker of many cameras has returned, each camera's edges alternate from a rise and end at its level |
| MotionTracker.FallsDecided | internal/events/motion.go:145-165 | A sweep's edges for one camera are exactly the fall decided for it, or none |
| MotionTracker.FallsWithinOneSweepOfDue | internal/events/motion.go:142-175 | With r the rise and m = min(last detection + linger, r + MaxDuration), a sweep lowers the level if and only if it comes at m or later, and before m + d when sweeps are at most d apart |
| MotionTracker.Tracker.Handle | internal/events/motion.go:105-140 | A detection moves one known camera, drops any other, and yields an edge exactly on a rise |
| MotionTracker.Tracker.Sweep | internal/events/motion.go:142-175 | A sweep lowers exactly the cameras that are due, one falling edge for each |
| MotionDispatcher.CameraQueue.Send | internal/events/motion.go:230-252 | With the consumer running between any two channel operations, the newest edge always gets in, at most the edge it supersedes is dropped, deliveries stay a subsequence of the sent edges, and the final default branch is unreachable |
| MotionDispatcher.SubsequenceDrop | internal/events/motion.go:242-246 | Taking the newest kept edge out leaves a subsequence of what was sent |
| PullPoint.EveryTopicSeesEveryLevel | deploy/onvif/events-service.js:172-179 | On every advertised topic the fanned-out history carries exactly the levels, in order |
| PullPoint.HistoryPerTopic | deploy/onvif/events-service.js:215-299 | What a live subscriber pulled plus what is queued, per topic, starts with the state at creation, strictly alternates and ends with the current state |
| PullPoint.ReapedWhenAbandoned | deploy/onvif/events-service.js:201-213 | A subscription is reaped if and only if its last creation, pull or renewal is more than six lifetimes old |
| PullPoint.NotifyKeeps | deploy/onvif/events-service.js:283-299 | Notifying a change keeps every live subscriber's history complete |
| PullPoint.EventsService.SetMotion | deploy/onvif/events-service.js:283-300 | Only a change is queued, to every live subscription on every topic |
| PullPoint.EventsService.Pull | deploy/onvif/events-service.js:238-268 | A pull of a live subscription answers the first ten messages of its queue, or all when there are fewer, leaves the rest, and extends the lifetime; an unknown subscription gets none |
| PullPoint.EventsService.Handle | deploy/onvif/events-service.js:309-370 | Every SOAP request reaps first, then changes only what its action names; PullMessages answers the first ten messages or all |
| MotionPipeline.ServiceReachesLevel | internal/events/motion.go:105-280 | With edges sent in decided order and every delivery succeeding, once nothing is on its way the ONVIF state is the tracker's level, and so is the last thing every subscriber was sent on every topic, although superseded edges were dropped |
| MotionPipeline.ServiceShowsLastSent | internal/events/motion.go:105-280 | With rises and falls each sent by their own loop, once everything decided has arrived the service shows the edge sent last, and the tracker's level if and only if that is the edge decided last |
| MotionPipeline.SubscriberHistory | deploy/onvif/events-service.js:215-299 | In every reachable state, failed deliveries included, the batches a live subscriber pulled and its queue carry on every topic the service's state at the step that created it followed by every change of that state since, and nothing else |
| MotionPipeline.PullsTakeTens | deploy/onvif/events-service.js:238-258 | Over any stretch of a run without a change of state, n pulls of a live subscription take the first 10n messages of its queue, or all there are |
| MotionPipeline.PullsEmptyQueue | deploy/onvif/events-service.js:238-258 | Its queue is empty if and only if there have been at least (length + 9) / 10 pulls |
| MotionPipeline.TerminatesAfterRefresh | deploy/onvif/events-service.js:215-281 | Over every run a live subscription ends one lifetime after it was last created, pulled from or renewed |
| MotionPipeline.ReapsAbandoned | deploy/onvif/events-service.js:201-213 | Reaping takes away exactly the subscriptions not created, pulled from or renewed for six lifetimes |
| MotionPipeline.OutOfOrderEmissionSticks | internal/events/motion.go:132-136 | A fall sent before the rise it follows leaves the service at a level the camera does not have |
| Supervisor.DelayIsCappedPower | internal/supervisor/supervisor.go:153-161 | When Restart <= Max, doubling and then capping j times gives min(Max, Restart * 2^j) for every j |
| Supervisor.DelaysAreCappedPowers | internal/supervisor/supervisor.go:122-163 | The delays slept over a run, of any length and with any resets, are min(Max, Restart * 2^j) for the restarts since the last reset if and only if Restart <= Max or nothing was restarted |
| Supervisor.RestartsAreShortRuns | internal/supervisor/supervisor.go:151-155 | The restarts counted since the reset are exactly the short runs since the start or since a run that lasted long enough |
| Supervisor.Supervisor.SuperviseOne | internal/supervisor/supervisor.go:122-163 | Every delay is that of the restarts since the last run that lasted long enough, a run that lasted is followed by the short delay, no delay exceeds both bounds, and the delays are capped powers exactly when Restart <= Max |

## Left out

- Pion, gortsplib, HTTP, OAuth, Pub/Sub and the SDM REST calls: each is an outcome chosen freely (success, an error, a 429 with or without Retry-After, no session). `stopRemote` may time out before its Stop is sent, so nothing is said of the remote side.
- SOAP and XML text, log lines, error wording and codecs beyond supported or not: a message is a topic and a state, a subscription id a counter value.
- Config generation, slugs, SDP validation, compose files, the setup wizard, the viewer and host scripts: string work or I/O.
- Real-time liveness and fairness: no claim that a renewal sleeping outside the queue cannot lose a freed quota place, nor that a caller is served in the end.
- Several senders in one camera's queue at once: the code does not serialise them.
- Integer width: counters, arrival numbers and durations are unbounded, so their wrap-around is not modelled.
- The 0.6 renewal fraction is exactly three fifths of an integer, rounded down, not a floating-point product.
- Observer panics: a callback that panics ends like any other, as the recover makes it.
- Retry pauses, dial timeouts and videoWaits in the publisher: timing only.
- The per-trait limit, which the scheduler does not enforce on its own either.
- SchedulerProtocol.SlotStep: a context already cancelled before the first acquire is left out; such a caller never reaches the scheduler's state.
- Scheduler.Scheduler.DoAlone: covers the loop without competitors; with competitors the bounds are safety statements over runs.
- SessionManager.Manager.Run: the context is found live a number of times fixed beforehand but arbitrary, so the loop ends; every finite prefix of an endless run is such a run.
- SessionManager.Manager.RunOnce: the track pumps appear only as a connection that may be lost and, in SinkTotals, as writes.
- SinkTotals.GuardedSink.WriteRTP: one call at a time; the gap between the closed check and the inner write is in `LateWritesHadPassed`.
- SinkTotals.ReportsNeverDecrease: each of the four counters is loaded on its own inside one locked section, so the section is one step for each counter taken alone.
- ObserverProtocol.OneAtATimeInOrder: a callback counts as finished at the locked section after it.
- Supervisor.Supervisor.SuperviseOne: how long each run lasted is an input, and cancellation cuts the list of runs short.
- SessionTrace.WaitEndsBeforeExpiry: speaks of the wait; the extension itself may still queue for quota past the expiry.
- MotionPipeline.ServiceShowsLastSent: the two loops' sends to one queue do not overlap; the code does not serialise them.
- MotionDispatcher.CameraQueue.Send: one sender at a time; how many turns the consumer takes between two channel operations is arbitrary.
