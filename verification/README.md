# go-arti in Dafny

go-arti runs Arti, the Rust Tor client, inside a Go program. This project models the parts of it that
are algorithms or protocols rather than glue, and proves what callers rely on. Four groups:

1. **Status pipeline and shutdown.** Arti's statuses are condensed, deduplicated by progress and pushed
   through a queue that drops its newest entry when full. One Go pump drains the queue, caches the
   status and fans it out through channels that drop their oldest entry. `Bootstrap`, `StatusUpdates`,
   `Unsubscribe`, receivers and repeated `Close` calls interleave with it. The log fan-out, which can be
   stopped and restarted, is a second machine of the same kind.
2. **Handle and services.** A writer-preferring RWMutex guards a handle that can be freed; onion
   services behind it are drained twice. A separate machine covers publication: registration, the
   one-shot result, waiters, and the guard that two kinds of `Close` share.
3. **Codecs.** The version 3 onion address, the SOCKS5 server parser with username/password, stream
   isolation over the listener's life, and the base64 key echo.
4. **The fingerprint.** The tree walk, pruning, slash and line-ending normalisation, sorting, and the
   length-delimited stream that is hashed.

## How the model is built

Concurrent code is a small-step machine: a total `Apply(s, a)`, one step per lock section, channel
operation or foreign call, with any number of threads; a step that is not enabled changes nothing, so
every sequence of actions is a run and theorems over `Run(START, actions)` hold in every reachable state.
Objects the code updates in place are also given as classes whose methods are proved equal to the
functions the machines step with, loops included. Foreign behaviour (hashes, Unicode, Go's lenient
decoders, whether a launch or a dial succeeds, what arrives before a timeout) is a parameter or an
arbitrary action.

| files | what |
|---|---|
| `Sequences` | order-preserving selections |
| `Status`, `ClientMachine`, `ClientProofs`, `ClientWakeup`, `ClientTheorems`, `ClientProgress`, `ClientCalls`, `Client` | the status pipeline, its invariants, its theorems, its calls from beginning to end, and the client object |
| `LogsMachine`, `LogsProofs`, `LogsTheorems`, `LogsOrder`, `LogsCalls`, `Logs` | the log fan-out |
| `HandleMachine`, `HandleProofs`, `HandleServices`, `HandleTheorems`, `HandleDeadlock`, `Handle` | the RWMutex, the handle and the services |
| `Publication`, `PublishMachine`, `PublishProofs`, `PublishTheorems`, `PublishCalls` | publication and service teardown |
| `Bits`, `OnionAddress`, `KeyBlob` | bit packing, addresses, key blobs |
| `Socks`, `SocksProofs`, `SocksServer` | the SOCKS5 server |
| `Stamp`, `Collect`, `CollectProofs`, `Checkout` | the fingerprint |

Where the code and its comments disagree the model follows the code:

- The comment in `Listen` (internal/arti/onion.go:109-110) says the service is registered before it is
  launched; the code registers it after `OnionAdd` has returned. `PublishTheorems.RegistrationCanMissUpload`
  gives the schedule in which the only `UPLOADED` is lost, `PublishTheorems.PublishedIffDispatched` the
  exact condition.
- The comment on `StopLogging` (internal/arti/logs.go:97-98) says a later `EnableLogging` resumes
  delivery. Without `LIBTOR_LOG` it fails for ever: `LogsTheorems.ResumesIffFromEnv` and
  `LogsTheorems.StopIsFinal`.
- The comment on `wait` (internal/arti/cgo.go:144-145) asks that `free` be called only after `wait` has
  returned. Read as a condition on `free` alone it is not enough (`HandleDeadlock.FreesAfterWaitsIsNotEnough`);
  with no `wait` started beside a `free` it is (`HandleDeadlock.OrderingPreventsDeadlock`).

Three properties that hold only under a condition, each with a witness and the exact condition:

- Records stay in order across a restart exactly if every earlier pump is past its last poll when logging
  is started again (`LogsOrder.RestartDisordersIff`, `LogsOrder.RestartCanReorder`).
- Every launched service is shut down exactly if no insert finds its id mapped
  (`HandleTheorems.ExactlyOnceTeardown`, `HandleDeadlock.RelaunchedIdIsNeverShut`).
- `Client.Close` closes the listener of exactly the services registered when it looks, besides those that
  are closed by a call of their own (`PublishTheorems.CloseReachesRegistered`,
  `PublishTheorems.ListenCanOutliveClose`).

Some lemmas say what one step or one table is, in literals, so that the theorems about runs rest on
something outside the machines; they have no row. Steps: `ClientCalls.WaitingCallGivesUp`,
`ClientCalls.RefusedCallReturns`, `ClientCalls.SecondCloseReturns`, `ClientCalls.ReceiveTakesOldest`,
`ClientCalls.UnsubscribeCloses`, `PublishCalls.UndecidedSettlesNothing`, `PublishCalls.WaitGivesUp`,
`PublishCalls.FailedListenCloses`, `LogsCalls.EnableAdds`, `LogsTheorems.EmitDropsNewest`. Tables:
`StatusModel.SummaryFollowsCause`, `LogsCalls.BlankAscii`, `OnionAddress.AsciiSpaces`,
`OnionAddress.Base32Alphabet`, `KeyBlob.Base64Alphabet`, `Stamp.EntryLayout`.

Some lemmas are only witnesses and have no row: `Stamp.TwoPasses`, `Stamp.NulInPathCollides` and its
condition `Stamp.PassesForAnother`, `CollectProofs.SortingFirstDiffers`, `StatusModel.DedupDropsProblemText`
with `StatusModel.ProblemTextDiffers`.

## Model

| member | source | states |
|---|---|---|
| `StatusModel.ReadinessAgrees` | rust/arti-ffi/src/client.rs:400-444 | progress 100, tag "done" and liveness "up" each hold exactly when Arti is ready for traffic, progress never exceeds 100, and a ready status has a summary |
| `StatusModel.ProgressRounds` | rust/arti-ffi/src/client.rs:411-416 | below ready the progress is the percentage rounded to the nearest whole number, 0 below a half and 99 from 98.5 on |
| `StatusModel.ProblemIffFault` | internal/arti/client.go:348-367 | a problem is reported exactly while Arti is not ready and blocked by something other than being disabled, in Arti's own words |
| `StatusModel.EventAndQueryAgree` | internal/arti/client.go:305-355 | the event path and the direct query give Go the same status for one Arti status, ready exactly when Arti is |
| `StatusModel.WatchBootstrap` | rust/arti-ffi/src/client.rs:143-160 | the watcher's loop sends exactly the deduplicated events of the stream |
| `StatusModel.LastEmitted` | rust/arti-ffi/src/client.rs:147-157 | the last event sent has the progress and the readiness of the last status observed |
| `StatusModel.DedupKeepsReadiness` | rust/arti-ffi/src/client.rs:147-157 | for every status stream, deduplication by progress keeps every change of readiness, in order |
| `StatusModel.LastEmittedIsStretchStart` | rust/arti-ffi/src/client.rs:147-157 | the last event sent describes the first status of the last stretch of equal progress |
| `StatusModel.EventQueue.Send` | rust/arti-ffi/src/events.rs:48-52 | a full queue of 256 drops the new event; otherwise the event goes last |
| `StatusModel.EventQueue.Next` | rust/arti-ffi/src/events.rs:60-65 | events come out first in first out; an empty queue gives nothing |
| `StatusModel.BurstKeepsOldest` | rust/arti-ffi/src/events.rs:48-71 | a burst of any length keeps its oldest events, exactly as many as there is room for |
| `ClientTheorems.RunInv` | internal/arti/client.go:145-345 | the invariant of the whole client machine holds after every sequence of actions of any number of goroutines |
| `ClientTheorems.NoLostWakeup` | internal/arti/client.go:145-173 | while a `Bootstrap` waits on an open subscription and the cache is Ready, Ready is the newest entry of its channel or the pump still owes it that fan-out |
| `ClientTheorems.NoSilentUnsubscribe` | internal/arti/client.go:158-171 | a waiting `Bootstrap` that is no longer subscribed finds the client closed or its channel closed |
| `ClientTheorems.BufferedReadyIsReached` | internal/arti/client.go:158-171 | a Ready at the end of its channel is reached by the call's own receives, which then return success |
| `ClientTheorems.SuccessIsEarned` | internal/arti/client.go:145-188 | `Bootstrap` returns nil only after Arti was seen ready, by the watcher or a direct query |
| `ClientProgress.WaitingCallCanSucceed` | internal/arti/client.go:145-173 | from every reachable state in which Arti's last status is ready and the Rust queue has lost none, a `Bootstrap` waiting on an open subscription returns nil after steps of the pump and its own alone |
| `ClientCalls.BootstrapStarts` | internal/arti/client.go:145-157 | a call on an open client subscribes and asks; what it is told decides whether it leaves with success or waits on the subscription it already has |
| `ClientCalls.BootstrapCanSucceed` | internal/arti/client.go:145-173 | from every reachable open state in which Arti's last status is ready and none was lost, a new call returns nil after its own steps and the pump's |
| `ClientCalls.BootstrapWaits` | internal/arti/client.go:145-158 | from every reachable open state in which it would not be told Ready, a new call comes to wait on an open subscription |
| `ClientCalls.BootstrapOutlastsStartup` | internal/arti/client.go:145-173 | such a call, once Arti has become ready with nothing lost, returns nil after its own steps and the pump's |
| `ClientCalls.LaterReadySucceeds` | internal/arti/client.go:158-171 | from every reachable state with a call waiting on an open subscription and nothing lost, Arti becoming ready lets that call return nil |
| `ClientCalls.WaitingCallReturns` | internal/arti/client.go:152-167 | from every reachable state a waiting call can be cancelled, and one whose client is done can notice it: it returns that, with its subscription gone, once the lock is free |
| `ClientCalls.NoSubscriptionLeaks` | internal/arti/client.go:152-153 | in every reachable state the channels listed for `Bootstrap` belong to calls that have not returned |
| `ClientProgress.PumpDrains` | internal/arti/client.go:291-346 | while the client is open the pump, left to itself, empties the Rust queue whatever its length and the number of subscribers |
| `ClientTheorems.ChannelDiscipline` | internal/arti/client.go:199-225 | no send on a closed channel, no channel and no `done` closed twice; the subscriber list is duplicate-free, in subscription order, and is exactly the open channels while the client is open |
| `ClientTheorems.CloseCompletes` | internal/arti/client.go:262-288 | once one `Close` has completed, `done` and every channel ever handed out are closed, the handle is gone, and every other `Close` did nothing |
| `ClientCalls.CloseCanComplete` | internal/arti/client.go:262-288 | from every reachable open state a `Close` completes after its own steps and the end of the fan-out in progress, with everything closed |
| `ClientTheorems.NewestDelivered` | internal/arti/client.go:323-346 | between fan-outs every subscriber's last delivery is the newest published status, whatever receivers did between the nested selects |
| `ClientCalls.SubscriberHearsNext` | internal/arti/client.go:199-210 | a channel subscribed on a drained open client has the next change of progress as its newest entry once the pump has caught up |
| `ClientCalls.DescEventsDisplaceStatus` | rust/arti-ffi/src/events.rs:48-71 | descriptor events share the queue: Arti's change to ready is lost exactly when 256 of them wait in front of it |
| `ClientTheorems.DeliveredFromEmitted` | internal/arti/client.go:291-345 | what a channel received and holds is, in order, a selection of what the watcher emitted through both lossy stages, and everything offered to it is accounted for |
| `ClientTheorems.DrainedCacheIsCurrent` | internal/arti/client.go:323-326 | if no status overflowed the Rust queue, the drained Go cache has the progress and readiness of Arti's last status, and is word for word the first status of the last stretch of equal progress |
| `ClientTheorems.FreedMeansDone` | internal/arti/client.go:277-286 | a released handle implies `done` is already closed |
| `ClientTheorems.PumpWindsDown` | internal/arti/client.go:291-301 | once `done` is closed the pump has a bounded number of operations left before it exits, so it cannot spin on a released handle |
| `ClientObject.Client.StatusUpdates` | internal/arti/client.go:199-210 | hands out a new channel, closed already exactly when the client is |
| `ClientObject.Client.Unsubscribe` | internal/arti/client.go:215-225 | the in-place splice removes and closes exactly that channel, keeps the order of the rest, and ignores a channel that is not subscribed |
| `ClientObject.RemoveIsSplice` | internal/arti/client.go:220 | removing the first match is the slice splice the code performs |
| `ClientObject.Client.SendTo` | internal/arti/client.go:330-344 | the nested selects, with receivers running before each: the status ends up newest and at most one older entry that was not yet received is given up |
| `ClientObject.DiscardPublishes` | internal/arti/client.go:334-343 | discard, receive, send in any interleaving with receivers still delivers the status last and drops at most one |
| `ClientObject.Client.PublishStatus` | internal/arti/client.go:323-346 | every subscriber is given the status last, no other channel is offered anything, and nothing panics |
| `ClientObject.Client.Close` | internal/arti/client.go:262-288 | the first call closes `done` and each subscriber once and releases the handle; later calls change nothing |
| `HandleTheorems.HandleSafety` | internal/arti/cgo.go:89-98 | every FFI call in progress has a live handle, a freeing thread is alone, and the handle is freed at most once |
| `HandleTheorems.NothingShutTwice` | rust/arti-ffi/src/client.rs:219-265 | no service instance is shut down twice, and every instance that is up has exactly one owner: the map or one call |
| `HandleTheorems.CallLeavesShut` | rust/arti-ffi/src/client.rs:228-265 | the instance mapped under an id when a `Del` of it, a `Shutdown` or a `free` empties the map is shut once that call no longer holds it, whatever the other threads did meanwhile |
| `HandleTheorems.NothingUpAfterFree` | rust/arti-ffi/src/ffi.rs:169-178 | after `free` no instance is up, even one inserted between the two drains |
| `HandleTheorems.ExactlyOnceTeardown` | internal/arti/cgo.go:168-176 | once the handle is freed no instance was shut down twice, and every launched one was shut down exactly if no insert of the run found its id mapped |
| `HandleTheorems.LostIffOverwritten` | rust/arti-ffi/src/client.rs:219-225 | an instance is lost from the map exactly when some insert of the run found its id mapped |
| `HandleTheorems.DistinctIdsTearDown` | internal/arti/cgo.go:168-176 | with pairwise distinct service ids, every launched instance has been shut down, exactly once, by the time the handle is freed |
| `HandleTheorems.DistinctNeverOverwrite` | rust/arti-ffi/src/client.rs:219-225 | in a run whose launches have pairwise distinct ids no insert finds its id mapped |
| `HandleTheorems.TakenIdIsRepeated` | rust/arti-ffi/src/client.rs:220-223 | an insert that overwrites an entry has relaunched an id |
| `HandleDeadlock.Deadlock` | internal/arti/cgo.go:139-155 | from a state with a writer announced, `wait` in flight, the exit flag down and no `Shutdown` past its lock, every continuation stays stuck: `wait` never returns and the handle is never freed |
| `HandleDeadlock.CanFinishIffNotDoomed` | internal/arti/cgo.go:139-176 | every reachable state has a continuation in which all threads finish, possibly with a fresh `Shutdown` request in it, exactly when that condition does not hold |
| `HandleDeadlock.OrderingPreventsDeadlock` | internal/arti/cgo.go:144-147 | if `free` is only requested when no `wait` is in progress, and no `wait` is started beside a requested `free`, no reachable state is stuck |
| `HandleDeadlock.FreesAfterWaitsIsNotEnough` | internal/arti/cgo.go:144-147 | requesting `free` only when no `wait` is in progress does not suffice: a `wait` that starts beside the queued `free` gets stuck |
| `HandleDeadlock.DeadlockIsReachable` | internal/arti/cgo.go:144-147 | without the ordering the stuck state is reachable |
| `HandleDeadlock.RelaunchedIdIsNeverShut` | rust/arti-ffi/src/client.rs:220-223 | a witness of the overwriting branch: a second launch of a mapped id leaves the first instance never shut down |
| `HandleObject.RustClient.OnionAdd` | rust/arti-ffi/src/client.rs:200-225 | a launched service ends up mapped under its id, replacing any instance there; a failed launch changes nothing |
| `HandleObject.RustClient.OnionDel` | rust/arti-ffi/src/client.rs:228-241 | the named service is unmapped and shut down and nothing else changes; an unknown id is an error |
| `HandleObject.RustClient.ShutdownAll` | rust/arti-ffi/src/client.rs:250-265 | the drain loop empties the map, shuts down exactly what was in it, and raises the exit flag |
| `HandleObject.ArtiClient.Free` | internal/arti/cgo.go:168-176 | frees once, leaves no instance up, and does nothing the second time |
| `HandleObject.ArtiClient.OnionAdd` | internal/arti/cgo.go:239-264 | a released client answers "closed"; on a live one a launch ends up mapped under its id and a failed launch changes nothing |
| `HandleObject.ArtiClient.OnionDel` | internal/arti/cgo.go:267-281 | a released client answers "closed"; otherwise the named service is unmapped and shut down and nothing else changes, or the id is unknown and nothing changes |
| `Publication.WatchStatus` | rust/arti-ffi/src/onion.rs:243-288 | the loop with its two flags announces the closed form: one `UPLOAD` first, every failure in order, one `UPLOADED` at the first reachable status |
| `Publication.WatcherAnnouncesOnce` | rust/arti-ffi/src/onion.rs:250-286 | for every stream, something is announced exactly when some status is not `Shutdown`; nothing precedes a single `UPLOAD`; there is at most one `UPLOADED`, present exactly when some such status was reachable |
| `Publication.LiveKeeps` | rust/arti-ffi/src/onion.rs:254-258 | exactly the `Shutdown` statuses are skipped, the others keep their order |
| `Publication.FailuresReported` | rust/arti-ffi/src/onion.rs:279-285 | the failures announced are exactly the `Broken` statuses with their reasons, in order |
| `Publication.FailureReasons` | rust/arti-ffi/src/onion.rs:279-285 | a failure carries Arti's own words about the problem, or "unknown" when it gives none |
| `Publication.VerdictOfStream` | rust/arti-ffi/src/onion.rs:256-286 | the first deciding event of a stream is the first status that is reachable or broken, reachable winning when it is both |
| `Publication.OnionService.HandleDescEvent` | internal/arti/onion.go:176-186 | the first decision settles the result and every later event leaves it; the channel is closed at most once |
| `Publication.OnionService.CloseLocal` | internal/arti/onion.go:230-232 | stops listening unless one of the two closing calls already has, and leaves the publication result alone |
| `Publication.Registry.Dispatch` | internal/arti/client.go:311-318 | an event reaches exactly the service registered under its address, or nobody |
| `Publication.Registry.CloseService` | internal/arti/onion.go:209-226 | unregisters, unpublishes and stops listening once; later calls change nothing |
| `PublishTheorems.WaitersAgree` | internal/arti/onion.go:163-186 | every `WaitPublished` that returns through the channel reports the first decision dispatched while its service was the one registered at the address |
| `PublishTheorems.WaitersReportTheStream` | rust/arti-ffi/src/onion.rs:243-288 | whichever of its watcher's announcements a service was looked up for, a waiter reports what the first deciding announcement says exactly if that one was looked up, and this is then the verdict of Arti's own status stream |
| `PublishTheorems.LateRegistrationIsHarmless` | internal/arti/onion.go:120-140 | a service looked up for its watcher's announcements from any point on before which nothing decisive was announced reports the verdict of the whole status stream |
| `PublishTheorems.VerdictIsFinal` | internal/arti/onion.go:176-186 | once `published` is closed its result never changes and the channel is not closed again, in any continuation |
| `PublishTheorems.PublishedIffDispatched` | internal/arti/client.go:311-318 | between events, a result is in exactly when the run dispatched a decision for an address at which this service was the one registered, with the pump free to take it |
| `PublishCalls.DecisionIsDelivered` | internal/arti/client.go:311-318 | in every reachable state with the pump between events, a decision for a registered address publishes the service there, with that decision as its result if it had none, and changes no other |
| `PublishCalls.DecisionReachesCaller` | internal/arti/onion.go:163-186 | a caller that then waits returns exactly that decision |
| `PublishCalls.UnmappedIsDropped` | internal/arti/client.go:313-317 | an event for an address nobody has registered changes no service, however often the pump goes on |
| `PublishCalls.WaitsReturnForAReason` | internal/arti/onion.go:163-172 | in every run a wait returns only because the result is in, its own context was cancelled, or the client is done |
| `PublishCalls.ListenRegisters` | internal/arti/onion.go:111-140 | from every reachable state with the client open, a `Listen` ends with its service registered under the id it was given, open and undecided |
| `PublishCalls.CloseHasItsEffect` | internal/arti/onion.go:209-226 | from every reachable state the first `Close` of a service unregisters its id, unpublishes it once and closes its listener once |
| `PublishTheorems.MissedForGood` | internal/arti/onion.go:163-172 | a service that missed its decision and gets no other stays unsettled: its waiters return only by cancellation or client shutdown |
| `PublishTheorems.RegistrationCanMissUpload` | internal/arti/onion.go:109-140 | the schedule in which the one `UPLOADED` is dispatched before registration, and its consequence in every continuation without another decision |
| `PublishTheorems.ClosedOnce` | internal/arti/onion.go:209-232 | no listener is closed twice, no service is unpublished twice by `Close`, no channel is closed twice |
| `PublishTheorems.CloseReachesRegistered` | internal/arti/client.go:271-280 | when the client's `Close` has visited its services, a handed-out service has its listener closed exactly if it was registered when the first `Close` came or a `Close` of its own has returned |
| `PublishTheorems.TeardownCanFinish` | internal/arti/client.go:278-280 | the guard shared with `OnionService.Close` never blocks the client's `Close` for good |
| `PublishTheorems.ListenCanOutliveClose` | internal/arti/onion.go:120-140 | the schedule in which `Listen` hands out a service after `Close` has looked, with its listener left open |
| `LogsTheorems.FanOutIsSafe` | internal/arti/logs.go:62-141 | across any stops and restarts: no send on a closed channel, no double close, exactly the newest pump's stop channel open while started and none otherwise, a channel open exactly while listed |
| `LogsTheorems.NoRecordTwice` | internal/arti/logs.go:115-141 | no record reaches a channel twice, each pump's records stay in order, and received plus buffered is all that was delivered |
| `LogsCalls.RecordReachesConsumer` | internal/arti/logs.go:115-141 | from every reachable state with logging on, the oldest queued record gets to any listed consumer by steps of the pumps and receives of that consumer alone |
| `LogsCalls.StoppedPumpExits` | internal/arti/logs.go:115-126 | a pump whose stop channel is closed exits by its own steps once no other holds the lock, also with nothing queued or after a restart |
| `LogsOrder.RestartDisordersIff` | internal/arti/logs.go:62-141 | an `EnableLogging` that starts logging returns a channel that can get out of order exactly if some earlier pump is still polling or holds a record when the call is made |
| `LogsOrder.DisordersIff` | internal/arti/logs.go:115-141 | in every reachable state with `logMu` free, an open channel that is in order can get out of order exactly if a stopped pump is still polling or holds a record, or the newest pump holds a record from before one already delivered |
| `LogsOrder.RestartCanReorder` | internal/arti/logs.go:99-141 | a witness: the pump stopped with a record in hand makes the channel of a restart get out of order in some continuation |
| `LogsTheorems.StoppedPumpSendsOnce` | internal/arti/logs.go:115-141 | a pump begins at most one fan-out after its stop channel is closed |
| `LogsTheorems.ResumesIffFromEnv` | internal/arti/logs.go:70-79 | after a start and a stop, `EnableLogging` with a level succeeds again exactly when `LIBTOR_LOG` is set |
| `LogsTheorems.StopIsFinal` | internal/arti/logs.go:97-112 | without `LIBTOR_LOG`, after any run in which logging was started and stopped, no continuation starts it again or hands out a channel |
| `LogsTheorems.StopHappens` | internal/arti/logs.go:70-79 | a witness: one start and one stop without `LIBTOR_LOG` reach that state, and the next call fails |
| `LogsCalls.HostSubscriberBlocks` | internal/arti/logs.go:70-79 | in a process without `LIBTOR_LOG` whose host installed a subscriber first, no run starts logging |
| `Logs.LogHub.EnableLogging` | internal/arti/logs.go:62-84 | when it fails, when it starts a pump, and the open channel it hands out |
| `Logs.LogHub.StopLogging` | internal/arti/logs.go:99-112 | closes the newest stop channel and every channel handed out, each once |
| `Logs.LogHub.FanOut` | internal/arti/logs.go:128-139 | every listed channel with room gets the record last, every other channel is untouched, and a stopped hub sends nothing |
| `Logs.StepsFanOut` | internal/arti/logs.go:128-139 | a pump's single steps under the lock add up to that fan-out |
| `Bits.DecodeEncode` | internal/arti/onionkey.go:53 | base32 as in section 6 of RFC 4648: regrouping bytes into k-bit symbols and back is the identity, with zero slack shorter than a symbol |
| `Bits.EncodeDecode` | internal/arti/onionkey.go:64 | symbols whose slack bits are zero come back from their bytes, as section 6 of RFC 4648 has it |
| `OnionAddress.OnionIDFromPublicKey` | internal/arti/onionkey.go:44-54 | filling the 35-byte buffer in place yields the printed id; any other key length is an error |
| `OnionAddress.PrintedShape` | internal/arti/onionkey.go:50-53 | every printed id has 56 characters of the lower-case alphabet and ends in 'd' |
| `OnionAddress.PrintedBytes` | internal/arti/onionkey.go:44-54 | decoding a printed id gives the key, the first two bytes of the digest of ".onion checksum", key and 3, spelt out in bytes, and 3 |
| `OnionAddress.SameIdIffSameDigest` | internal/arti/onionkey.go:112-121 | two digests print the same id for a key exactly when they agree on that pre-image |
| `OnionAddress.ParsePrinted` | internal/arti/onionkey.go:61-81 | for every key and every checksum function, parsing the printed id under any letter case, surrounding white space and an optional suffix returns the key |
| `OnionAddress.PrintParsed` | internal/arti/onionkey.go:61-81 | an accepted 56-character id over the alphabet prints back as its own lower-case form |
| `OnionAddress.AcceptedIff` | internal/arti/onionkey.go:61-81 | a 56-character id is accepted exactly when its last byte is 3 and bytes 32 and 33 are the digest of that pre-image |
| `OnionAddress.LastFourAreDetermined` | internal/arti/onionkey.go:71-79 | whatever the hash, an id that differs from an accepted one only in its last four characters is rejected |
| `KeyBlob.DecodeInvertsEncode` | rust/arti-ffi/src/onion.rs:97-106 | base64 decoding inverts encoding on every byte string |
| `KeyBlob.EncodeInvertsDecode` | rust/arti-ffi/src/onion.rs:104-106 | the strict decoder accepts only what the encoder produces |
| `KeyBlob.Base64Shape` | rust/arti-ffi/src/onion.rs:97-98 | n bytes encode to (n + 2) / 3 groups of four characters, padded exactly from position (4n + 2) / 3 on |
| `KeyBlob.TakenIff` | rust/arti-ffi/src/onion.rs:91-122 | a key is taken exactly when a new one is asked for under either name of the algorithm or the blob is the canonical text of 64 usable bytes; which error any other type or algorithm gets |
| `KeyBlob.RefusedKey` | rust/arti-ffi/src/onion.rs:104-111 | exactly which blobs are malformed, of the wrong length, or no secret |
| `KeyBlob.SuppliedKeyIsStable` | internal/arti/onion.go:81-138 | a supplied key comes back byte for byte exactly when it has 64 bytes and is usable; otherwise which error |
| `KeyBlob.GeneratedKeyReimports` | rust/arti-ffi/src/onion.rs:91-122 | a generated key is reported as generated and importing the report gives the same key and blob |
| `KeyBlob.EchoIsCanonical` | rust/arti-ffi/src/onion.rs:103-119 | echoing the caller's text and re-encoding its bytes are the same for every accepted blob |
| `Socks.Socket.NegotiateAuth` | rust/arti-ffi/src/socks.rs:180-224 | what the negotiation returns, writes and leaves unread, on every byte stream |
| `Socks.Socket.ReadConnectRequest` | rust/arti-ffi/src/socks.rs:131-176 | what the request parser returns, writes and leaves unread, on every byte stream |
| `SocksProofs.GreetingDecides` | rust/arti-ffi/src/socks.rs:195-209 | no-auth is preferred, username/password is the fallback, anything else is refused with 0xFF |
| `SocksProofs.WireFormat` | rust/arti-ffi/src/socks.rs:131-224 | the greeting, login and request that the round trips speak of, byte by byte as in sections 3 to 5 of RFC 1928 and section 2 of RFC 1929 |
| `SocksProofs.NegotiateInvertsLogin` | rust/arti-ffi/src/socks.rs:184-223 | an encoded login yields exactly its credentials, up to 255 bytes each, and leaves what follows untouched |
| `SocksProofs.ConnectInvertsRequest` | rust/arti-ffi/src/socks.rs:135-175 | every IPv4, IPv6 or UTF-8 domain target and port come out exactly, with nothing after the request consumed |
| `SocksProofs.ReplyIsRead` | rust/arti-ffi/src/socks.rs:226-233 | a client reads a reply, laid out as in section 6 of RFC 1928, as its code and an all-zero IPv4 address, and finds what follows it |
| `SocksProofs.RefusedRequest` | rust/arti-ffi/src/socks.rs:138-172 | a request is refused exactly when its head asks for another command or address type; the refusal says which and only the head is consumed |
| `SocksProofs.AcceptedNegotiation` | rust/arti-ffi/src/socks.rs:180-224 | a successful negotiation was an encoded greeting, followed by an encoded login when username/password was chosen |
| `SocksProofs.AcceptedRequest` | rust/arti-ffi/src/socks.rs:131-176 | an accepted request is the encoding of the target it yields, apart from the reserved byte |
| `SocksProofs.TruncatedLogin` | rust/arti-ffi/src/socks.rs:184-223 | no strict prefix of a login yields a result |
| `SocksProofs.TruncatedGreeting` | rust/arti-ffi/src/socks.rs:184-193 | no strict prefix of a greeting yields a result |
| `SocksProofs.TruncatedRequest` | rust/arti-ffi/src/socks.rs:135-175 | no strict prefix of a request yields a result |
| `SocksProofs.NegotiateGrows` | rust/arti-ffi/src/socks.rs:180-224 | a negotiation decided on some input is decided alike when more input follows |
| `SocksProofs.ConnectGrows` | rust/arti-ffi/src/socks.rs:131-176 | a request decided on some input is decided alike when more input follows |
| `SocksServer.Isolation.TokenOf` | rust/arti-ffi/src/socks.rs:58-61 | returns the stored token, or stores and returns the minted one |
| `SocksServer.IsolationIsExact` | rust/arti-ffi/src/socks.rs:54-62 | over all calls in any order, two tokens are equal exactly when user name and password both are |
| `SocksServer.ResplitCredentialsIsolate` | rust/arti-ffi/src/socks.rs:49-61 | credentials whose concatenations coincide still get different tokens |
| `SocksServer.ConnectionsAreIsolated` | rust/arti-ffi/src/socks.rs:68-125 | over the listener's life and for any bytes on any connections, two connections that log in and dial do so under one token exactly when their credentials are equal |
| `SocksServer.LoginPresents` | rust/arti-ffi/src/socks.rs:93-108 | an encoded login session presents exactly its credentials |
| `SocksServer.AnswerOnTheWire` | rust/arti-ffi/src/socks.rs:93-125 | for any bytes on the connection, one that dials is answered last with 5, 0 or 1, 0, 1 and six zero bytes, 0 exactly when Arti connected |
| `SocksServer.ServeOne` | rust/arti-ffi/src/socks.rs:93-125 | one connection up to the relay: error, dial, isolation token, every byte written and left |
| `SocksServer.LoginSession` | rust/arti-ffi/src/socks.rs:93-125 | a whole login session dials the target under the token of exactly its credentials, is sent the three messages byte by byte, the last with code 0 exactly when Arti connected, and leaves the payload for the relay |
| `SocksServer.AnonymousSession` | rust/arti-ffi/src/socks.rs:93-125 | a session without credentials is dialled without a token, leaves the tokens alone, and is answered with code 0 exactly when Arti connected |
| `Stamp.NormaliseUndoesCRLF` | tools/stamp/main.go:168-172 | a CRLF copy of any content normalises to the content |
| `Stamp.LineEndingsDoNotMatter` | tools/stamp/main.go:168-172 | LF and CRLF copies enter the stream alike exactly when the content has no CRLF pair of its own |
| `Stamp.NormaliseTwice` | tools/stamp/main.go:172 | normalising is idempotent exactly on content without CR CR LF |
| `Stamp.SpellDecimal` | tools/stamp/main.go:176 | the decimal length is digits only and spells the number back |
| `Stamp.ParseInvertsStream` | tools/stamp/main.go:160-178 | a parser recovers the list of files from the stream, for NUL-free paths |
| `Stamp.StreamInvertsParse` | tools/stamp/main.go:174-177 | the parser accepts nothing but printed streams |
| `Stamp.UniquelyDecodable` | tools/stamp/main.go:174-177 | two lists with NUL-free paths give equal streams exactly when they are equal |
| `Stamp.Fingerprint` | tools/stamp/main.go:160-180 | hashes exactly the stream of the normalised files, or fails on the first file that cannot be read |
| `Collect.CollectFiles` | tools/stamp/main.go:118-157 | fails on the first missing source exactly when one is missing; otherwise the walks of all sources, gathered in one list, come back sorted |
| `Collect.Run` | tools/stamp/main.go:72-87 | a fingerprint exists exactly when every source exists, some file is selected and every file can be read; an empty list is refused |
| `CollectProofs.SortedKeeps` | tools/stamp/main.go:155 | sorting is a permutation |
| `CollectProofs.SortedSorts` | tools/stamp/main.go:155 | the sorted list is strictly increasing exactly when no path was listed twice |
| `CollectProofs.SortedUnique` | tools/stamp/main.go:108-110 | a strictly increasing list is fixed by its elements |
| `Checkout.CollectedExactly` | tools/stamp/main.go:120-149 | `collect` returns exactly the files below a source whose names end in the bytes of ".rs", ".toml" or ".lock", with no directory on the way called "target" or, below the source itself, starting with byte 46 |
| `CollectProofs.AllowedIff` | tools/stamp/main.go:139-143 | the extension test accepts exactly the names that end in those bytes |
| `CollectProofs.PrunedIff` | tools/stamp/main.go:131-136 | the directory test skips exactly those names |
| `CollectProofs.BaseFollowsSlash` | tools/stamp/main.go:134 | the name of a source is what follows its last slash |
| `Checkout.CrateIsCovered` | tools/stamp/main.go:53-58 | a fingerprint needs all four named inputs and covers both manifests and every `.rs` file directly in the crate, on either platform |
| `Checkout.CollectedSorted` | tools/stamp/main.go:105-117 | a portable checkout is listed strictly sorted, alike with '/' and '\' as separator |
| `Checkout.CollectedReproducible` | tools/stamp/main.go:108-117 | one tree in any two enumeration orders, with any two separators, gives one list |
| `Checkout.PreimageReproducible` | tools/stamp/main.go:118-180 | the hashed bytes agree for any enumeration order, either separator, and LF or CRLF copies of contents without CRLF pairs |
| `Checkout.PreimageTellsApart` | tools/stamp/main.go:118-180 | two portable checkouts hash the same bytes exactly when they list the same files with the same contents up to line endings |
| `Checkout.SourcesApart` | tools/stamp/main.go:53-58 | the four named inputs are portable paths, none inside another |

## Left out

- ClientObject.Client.PublishStatus: channels are values in an arena named by number, so a Go channel shared by two names is not captured; receivers run between channel operations, other `mu` sections do not.
- ClientObject.Client.Close: one call at a time; the interleaving of several closes with everything else is in the machine.
- ClientTheorems.DeliveredFromEmitted: `hs_desc` events take part only by occupying the Rust queue; what the pump does with them is in the publication machine.
- HandleTheorems.HandleSafety: the body of a call that only reads is one step, and finalizers are one more caller of `free`.
- StatusModel.ReadinessAgrees: the progress fraction is a real number, so `f32` rounding of values and NaN are not modelled.
- OnionAddress.PrintParsed: only ids of 56 characters over the alphabet; Go's base32 decoder skips line breaks and accepts other lengths, and its source is not part of this model.
- KeyBlob.SuppliedKeyIsStable: which 64-byte strings are usable secrets, and what Go's base64 decoder does with text the strict one refuses, are arbitrary functions.
- SocksServer.ServeOne: writes to the client always succeed, and addresses are handed to Arti as bytes rather than as text.
- Logs.LogHub.EnableLogging: whether directives parse is an input.
- PublishTheorems.WaitersReportTheStream: that the events looked up to a service come from its own watcher, in order, is a hypothesis; a relaunch of its id would mix two watchers.
- LogsTheorems.NoRecordTwice: records are numbered, their fields and JSON are not modelled.
- Stamp.Fingerprint: contents are looked up by slash path, without the conversion back to native separators; nothing is claimed about the hash.
- Checkout.CollectedReproducible: names that contain a slash, a backslash or NUL, and symbolic links, are outside the portable trees.
- `Bootstrap`, `pumpEvents` and `pumpLogs` as loops of their own: their bodies are steps of the machines, where other goroutines run between them.
- Arti itself, tokio, serde and JSON, C strings, panic trapping and raw addresses across the FFI.
- Ed25519, SHA3-256 and SHA-256: arbitrary functions; no claim about collisions.
- The relay after a SOCKS reply, `DialContext` and the dialer cache, port checks in `Listen`, and nickname generation.
- `Bootstrap` inside `Listen`: `Listen` starts at its check that the client is open.
- Real time: a timeout is a step in which nothing arrived.
- `saturating-time`: its patched source is not part of this model.
- Configuration, wire structs, build rules and the generated stamp file: finite tables and wrappers.
