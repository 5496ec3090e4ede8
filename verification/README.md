# Verified model of the confidential-inference core

This project models five groups of code and proves what they add up to, over every input, every
interleaving or every run.

| group | modules |
|---|---|
| gateway accounting and streaming | `UsageQueue`, `UsageSenders`, `ModelResponse` |
| gateway admission and trust state | `AddressSlots`, `InferencePermits`, `RateWindow`, `RateExactness`, `AdminAuth`, `KeyStore`, `RoutingKey` |
| incremental release | `ReleaseInputs`, `Release`, `StaleReleases` |
| prefill/decode pair supervisor | `PairSupervisor` |
| simulator arithmetic | `Prefetch`, `Transfer`, `BudgetSearch` |

`Common` and `Json` hold shared vocabulary. `dafny verify dfyconfig.toml` checks the whole project.

State that the source updates in place is a class. Its methods are proved equal to a step function on
values, and the theorems speak about that function: what every step keeps, and so what holds after any
sequence of steps. Concurrency is a state machine whose steps are the source's critical sections and its
single semaphore operations. Where a critical section reads what changes outside its lock, as the eviction of
address slots reads reference counts, each read is a step of its own. Map filters are written as removals and other maps are built key by key, because
Dafny 4.11 can prove `false` from map comprehensions that drop a key.

## Main results

- **Poison isolation.** Whatever the admin answers, a drain loses, doubles and reorders nothing. Against
  an admin that refuses exactly the batches with a bad event, every good event is delivered once and in
  order, every bad one is dropped once, the queue ends empty, and a removed batch costs at most 9 sends.
- **Queue safety.** With any number of pushers and senders, an answer removes only events of its own batch.
- **Streaming is a line map.** However a response is cut into chunks, the rewriter's output, usage and
  done flag are those of a map over the whole lines, and all cuttings fail together.
- **An incremental release equals a full rebuild**, over every chain of releases, if and only if every input
  file matches its patterns under the name that git prints.
- **Eviction never weakens a limit**, permits are conserved in every interleaving of single takes and returns,
  and each limit refuses exactly at its bound.
- **The rate bounds hold exactly** for the rates and the steps back of the clock that `RateExactness` lists.
- **A signed request is accepted at most once**; snapshots converge; routing-key inputs are injective.
- **A ready snapshot of the pair has evidence** in the tick that wrote it, with every record fresh within the
  progress timeout, and a failure is final.
- **Simulated time**: prefetch stays in its budget and every waiting operation finishes in order or is
  terminated by its owner, segments are the unique maximal runs, the transfer time has a closed form, and the budget search returns the least budget.

## Findings

These expected laws hold only under a condition. Each has a concrete input and an exact condition.

- Pushed = queued + dropped + answered fails for a queue of capacity 0, where a push into the empty queue
  is counted as dropped (`UsageSenders.ConservationExactly`).
- The metric of refused events can exceed the events that left as refused. Two senders may hold one event,
  and a refusal counts although the event is gone (`UsageSenders.RejectedExactly`, `RejectedCanExceed`).
- A line ending is kept, except that a carriage return which no newline follows is dropped
  (`ModelResponse.LineAnatomy`, `BareReturnIsDropped`).
- The usage recorded for a failed event stream depends on how it was cut into chunks, because the gateway
  takes the rewriter's observation only after a step that succeeded (`ModelResponse.CuttingDecidesTheRecord`,
  `CuttingDecidesWitness`). `ModelResponse.CuttingsAgreeExactly` says for which streams it does not.
- A diff is read by the names that git prints, and git quotes a name with a character such as `é`. The quoted
  name matches no pattern, while `input_revision` reads the name itself and counts the file as an input. So a
  change of such a file is not noticed (`ReleaseInputs.UnseenChange`), and a release can inherit or publish an
  old digest (`StaleReleases.UnseenIsInherited`, `UnseenPassesBoundary`). `ReleaseInputs.UntouchedExactly`,
  `GitSeesExactly`, `StaleReleases.IncrementalExactly` and `IncrementalExactlyWithGit` give the exact condition.
- An inherited digest is right only for an image in the selector. `StaleReleases.UnregisteredGoesStale` gives two
  builds, from no release at all, between which an image leaves the selector, and the second deploys its old
  digest. Under one selector it cannot happen (`Release.IncrementalUnderOneSelector`).
- Executing and waiting requests can exceed the admission capacity, because a request returns its admission
  permit before its execution permit. Some run exceeds it if and only if keys have permits and there are
  execution permits, and the largest excess is their number (`InferencePermits.OvershootExactly`,
  `OvershootAtMost`, `OvershootReached`). `InferencePermits.BoundFailsExactly` says in which states.
- A lookup that is refused for a full table of address slots may leave an idle entry. The eviction looks at the
  entries one after the other, and an entry that was busy when it was looked at may be idle at the refusal
  (`AddressSlots.RefusalMeansAllBusy`, `IdleEntryCanRefuse`).
- The replay and rate bounds depend on clock readings, which the source takes before the lock.
  `AdminAuth.ReplayRefusedExactly` is exact for replays. `RateExactness.WindowHoldsExactly` and
  `RateExactness.TwiceHoldsExactly` say how far back a reading may be for the rate bounds to hold.

The prefetch code grants one whole token when time is short. So the tokens moved may cost up to one token
more than the time charged (`Prefetch.CallKeeps`). The time of a simulated transfer is not a number exactly when
units have no bytes or a segment has no units (`Transfer.TimeIsNumberExactly`).

## Model

| member | source | states |
|---|---|---|
| UsageQueue.AckCuts | services/gateway/src/usage.rs:166-176 | on a contiguous queue an acknowledgement cuts at exactly one position, wherever its sequence lies |
| UsageQueue.AckTakesPrefix | services/gateway/src/usage.rs:154-176 | acknowledging the last sequence of a batch removes just that batch |
| UsageQueue.DrainKeepsEveryEvent | services/gateway/src/usage.rs:193-215 | for any admin, the removed batches followed by what stays queued are the events, none lost, doubled or reordered |
| UsageQueue.DrainStopsOnlyOnRetry | services/gateway/src/usage.rs:193-215 | events stay queued exactly when the last answer was retryable, and no earlier answer was |
| UsageQueue.SendsPerRemovedBatch | services/gateway/src/usage.rs:193-215 | halving costs at most 9 sends per removed batch, and 9 for a final retryable failure |
| UsageQueue.PoisonIsolation | services/gateway/src/usage.rs:193-215 | against an admin that refuses exactly batches with a bad event: good events delivered once in order, bad ones dropped once in order, nothing left |
| UsageQueue.Recorder.constructor | services/gateway/src/usage.rs:104-124 | an empty queue that starts at sequence 0 |
| UsageQueue.Recorder.Push | services/gateway/src/usage.rs:139-150 | a full queue loses its oldest entry and counts it; sequences stay contiguous |
| UsageQueue.Recorder.Batch | services/gateway/src/usage.rs:154-162 | the oldest entries up to the limit with the sequence of the last, none exactly when there are none |
| UsageQueue.Recorder.Acknowledge | services/gateway/src/usage.rs:166-176 | the pop loop removes the leading entries up to the sequence and keeps the queue contiguous |
| UsageQueue.Recorder.SendBatch | services/gateway/src/usage.rs:195-213 | one round of the send loop: what leaves the queue, the next limit and the refusal count, per answer |
| UsageQueue.Recorder.SendPending | services/gateway/src/usage.rs:193-215 | the loop terminates and refines the drain; it succeeds exactly when the queue is empty; the refusal counter counts the dropped events |
| UsageSenders.QueueSafety | services/gateway/src/usage.rs:139-176 | in every interleaving: sequences contiguous, length within a capacity of at least one, nothing leaves twice, delivered only if an accepted batch had it, refused only if refused alone |
| UsageSenders.AcknowledgeRemovesOnlyItsBatch | services/gateway/src/usage.rs:166-213 | whatever happened since a batch was taken, its answer removes its own queued events and no other |
| UsageSenders.ConservationExactly | services/gateway/src/usage.rs:139-150 | pushes = queued + counted drops + answered removals, if and only if the capacity is at least 1 or nothing was pushed |
| UsageSenders.RefusalsCounted | services/gateway/src/usage.rs:202-207 | over every run the refusal metric counts the events that left as refused plus the lone refusals that came after their event was gone |
| UsageSenders.RejectedExactly | services/gateway/src/usage.rs:202-207 | so it is never too low, and equals the refused events if and only if no lone event was refused after it had left |
| UsageSenders.RejectedCanExceed | services/gateway/src/usage.rs:193-215 | two senders hold one event and are both refused: the metric counts two, and one event left |
| ModelResponse.ObservationBounded | services/gateway/src/model_response.rs:58-127 | over every frame sequence counts stay at most 2^53-1, parts only beside totals they do not exceed, a mismatch reports nothing |
| ModelResponse.ObservationMeaning | services/gateway/src/model_response.rs:58-127 | the whole history in closed form: mismatch if and only if some frame was unexpected, otherwise the last reporting frame decides |
| ModelResponse.MismatchIsForever | services/gateway/src/model_response.rs:58-67 | after one frame of another model the observation is the default whatever follows |
| ModelResponse.LinesJoin | services/gateway/src/model_response.rs:133-143 | cutting a stream into lines loses nothing |
| ModelResponse.LinesShape | services/gateway/src/model_response.rs:133-143 | newlines are left only at line ends, and every line but the last has one |
| ModelResponse.MapLinesMeaning | services/gateway/src/model_response.rs:129-201 | the line map succeeds exactly when no line is an error; its output is the outputs in order, its usage that of the frames, its done flag that of the end marker |
| ModelResponse.RewriteMeaning | services/gateway/src/model_response.rs:156-190 | a line comes out unchanged, is a hidden final-usage line, or is re-rendered with only the model replaced; a newline is kept |
| ModelResponse.LineAnatomy | services/gateway/src/model_response.rs:156-190 | a frame line is its field name, at most one space, the payload and the ending put back; a last carriage return is missing from the ending exactly when no newline follows it |
| ModelResponse.BareReturnIsDropped | services/gateway/src/model_response.rs:156-190 | a stream that is one frame ending in a bare carriage return comes out without it |
| ModelResponse.FeedSegment | services/gateway/src/model_response.rs:129-154 | a segment that ends in a newline completes the pending line or overflows it |
| ModelResponse.FeedLines | services/gateway/src/model_response.rs:129-201 | feeding bytes and ending equals the map over the lines |
| ModelResponse.FeedMeetsSpec | services/gateway/src/model_response.rs:129-201 | the incremental run equals the whole-response specification, event stream or one document |
| ModelResponse.CuttingIsIrrelevant | services/gateway/src/model_response.rs:129-201 | two ways to cut one response agree on success, output, observation and done flag |
| ModelResponse.Rewriter.constructor | services/gateway/src/model_response.rs:28-56 | nothing pending and nothing seen |
| ModelResponse.Rewriter.ObserveValue | services/gateway/src/model_response.rs:58-127 | the field-by-field update equals the observation step |
| ModelResponse.Rewriter.Append | services/gateway/src/model_response.rs:146-154 | refused exactly when the pending line would exceed 16 MiB, and then nothing changes |
| ModelResponse.Rewriter.Line | services/gateway/src/model_response.rs:156-190 | the result and the accounting of the pending line |
| ModelResponse.Rewriter.PushSegment | services/gateway/src/model_response.rs:133-142 | one segment overflows, completes a line or stays pending |
| ModelResponse.Rewriter.Push | services/gateway/src/model_response.rs:129-144 | the segment loop equals byte-wise feeding, also in where it fails |
| ModelResponse.Rewriter.End | services/gateway/src/model_response.rs:192-201 | the end of a response equals the end of the byte-wise run |
| ModelResponse.Respond | services/gateway/src/lib.rs:427-476 | for every cutting: fails exactly when the line map does, the whole rewrite on success and a prefix of it on failure, the same rewriter state; and what the gateway records is the observation after the last step that succeeded |
| ModelResponse.RecordedOnFailure | services/gateway/src/lib.rs:448-453 | a failed event stream is recorded as what the complete lines of the chunks before the failing one tell |
| ModelResponse.CuttingDecidesTheRecord | services/gateway/src/lib.rs:448-453 | a good line before a line that is an error: one chunk records nothing, a cut between them records the first line, and the two records differ if and only if the first line tells something |
| ModelResponse.CuttingDecidesWitness | services/gateway/src/lib.rs:448-453 | the same bytes, a line with one prompt token and a line that does not parse, are recorded as one token or as nothing |
| ModelResponse.CuttingsAgreeExactly | services/gateway/src/lib.rs:448-475 | all cuttings record the same if and only if the response has no error, is one document, fails only in its last line, or tells nothing before its error |
| ReleaseInputs.AffectedIsTouched | scripts/affected-release-images.py:117-127 | the affected images are exactly the selector's images of which a changed path matches as git prints it |
| ReleaseInputs.SameInputsExactly | scripts/affected-release-images.py:135-153 | two trees have the same inputs of an image if and only if no input is in their diff |
| ReleaseInputs.UntouchedIsSameInputs | scripts/affected-release-images.py:117-172 | an untouched image has the same inputs when its changed inputs match as printed, and the converse when nothing else does |
| ReleaseInputs.UnseenChange | scripts/affected-release-images.py:117-172 | the failing trees: a change of an input that does not match as printed touches nothing and changes the inputs |
| ReleaseInputs.UntouchedExactly | scripts/affected-release-images.py:117-172 | over all trees untouched means same inputs if and only if every input matches as printed, and the converse if and only if only inputs do |
| ReleaseInputs.GitSeesExactly | scripts/build-release-manifest.py:474-484 | with names as git prints them, and patterns that begin with a plain character, an input matches as printed if and only if its name has no unusual character |
| ReleaseInputs.UnaffectedIsSameInputs | scripts/build-release-manifest.py:474-807 | no image is affected if and only if all inputs agree, where the changed paths that match are those that match as printed |
| ReleaseInputs.FirstParentsLinked | scripts/find-image-publication-run.py:139-140 | the walked history is a first-parent chain |
| ReleaseInputs.Walk | scripts/find-image-publication-run.py:141-158 | the loop with its early exits gives the verdict at the first commit it cannot pass |
| ReleaseInputs.FindNearest | scripts/find-image-publication-run.py:126-158 | the same over the last 200 first-parent commits |
| ReleaseInputs.PassedCommitsTouchNothing | scripts/find-image-publication-run.py:117-158 | the diffs of passed commits telescope: the diff of the two ends touches no image |
| ReleaseInputs.PassedCommitsKeepInputs | scripts/find-image-publication-run.py:117-158 | so the inputs at both ends are equal, if those that differ match as printed |
| ReleaseInputs.EvidenceMeetsBoundary | scripts/find-image-publication-run.py:117-158 | the evidence found always passes the build's boundary check and no nearer commit had a trusted run; all inputs agree if those that differ match as printed |
| Release.AddAll | scripts/build-release-manifest.py:699-707 | filling the dictionary succeeds exactly when no name gets two digests, and then holds exactly the given entries |
| Release.AddsDetermines | scripts/build-release-manifest.py:699-727 | the filled dictionary does not depend on the order of the entries |
| Release.ReleaseImages | scripts/build-release-manifest.py:731-745 | succeeds exactly when every repository image is unpinned and has a digest; a published digest wins over the base |
| Release.BaseImagesFresh | scripts/build-release-manifest.py:668-728 | what a build inherits from a fresh base is fresh at the base commit |
| Release.InheritedFresh | scripts/build-release-manifest.py:668-728 | an inherited digest of a registered image is still right at the image source commit, if the changed inputs match as printed |
| Release.StaysFresh | scripts/build-release-manifest.py:787-807 | a digest that is right at the image source commit is right at the release commit after the boundary check, if the changed inputs match as printed |
| Release.ResolvedFresh | scripts/build-release-manifest.py:731-807 | so a resolved digest is that of a rebuild at the release commit |
| Release.DeployedIsResolved | scripts/build-release-manifest.py:810-959 | every repository image that a manifest deploys was resolved by the build |
| Release.PublishedFresh | scripts/build-release-manifest.py:787-807 | what was published at the image source commit is what a rebuild at the release commit gives |
| Release.BuildIsFresh | scripts/build-release-manifest.py:810-959 | one successful build over fresh releases yields a fresh release |
| Release.IncrementalEqualsFull | scripts/build-release-manifest.py:668-807 | over every chain of builds each published, deployed or inherited digest is that of a full rebuild at its release commit, where the changed inputs of its diffs match as printed |
| Release.BuildNamesRegistered | scripts/build-release-manifest.py:668-745 | a successful build names only images it published or its base named |
| Release.IncrementalUnderOneSelector | scripts/build-release-manifest.py:668-807 | under one selector the same holds with no condition on the values |
| Release.BindingNeverDiffers | scripts/build-release-manifest.py:769-784 | the last check on published digests can never fail |
| StaleReleases.UnregisteredGoesStale | scripts/build-release-manifest.py:461-745 | for every non-empty selector and image outside it: two builds from no release, the first fresh, the second succeeds with a stale digest of the image that left the selector |
| StaleReleases.UnseenIsInherited | scripts/build-release-manifest.py:474-807 | an input that does not match as printed, of an image that is not alone in the selector: some chain of builds inherits a stale digest |
| StaleReleases.UnseenPassesBoundary | scripts/build-release-manifest.py:787-807 | and of an image that is alone: some build publishes one past the boundary check |
| StaleReleases.IncrementalExactly | scripts/build-release-manifest.py:668-807 | for a selector of different names, all chains of builds equal full rebuilds if and only if every input matches as printed |
| StaleReleases.IncrementalExactlyWithGit | scripts/build-release-manifest.py:474-807 | with names as git prints them, if and only if no input path has an unusual character |
| AddressSlots.EvictionKeepsTheLimit | services/gateway/src/protection.rs:200-223 | in every interleaving, also with the single steps of an eviction, each reference is to the semaphore in the table, an address has at most its limit in flight, and the table has at most 4096 entries |
| AddressSlots.AcquireSucceedsBelowLimit | services/gateway/src/protection.rs:221-223 | in every reachable state a permit is given exactly while the address is below its limit |
| AddressSlots.RefusalMeansAllBusy | services/gateway/src/protection.rs:208-215 | a lookup is refused only for a full table of which each entry was busy when the eviction looked at it |
| AddressSlots.IdleEntryCanRefuse | services/gateway/src/protection.rs:208-215 | a run in which a lookup is refused while an entry is idle, because it was looked at before its request left |
| AddressSlots.LookupIsItsSteps | services/gateway/src/protection.rs:200-220 | a lookup without interruption equals its steps, in whatever order the entries are looked at |
| AddressSlots.NextKeepsInv | services/gateway/src/protection.rs:200-223 | every step, of which an eviction takes one per entry, keeps references current, entries apart and permits balanced |
| AddressSlots.SlotTable.constructor | services/gateway/src/protection.rs:88-102 | an empty table |
| AddressSlots.SlotTable.LookupSlot | services/gateway/src/protection.rs:200-220 | evict idle entries of a full table, refuse, or find or make the semaphore |
| AddressSlots.SlotTable.TryAcquire | services/gateway/src/protection.rs:221-223 | take a permit, or begin to leave when none is free |
| AddressSlots.SlotTable.ReleasePermit | services/gateway/src/protection.rs:200-223 | the permit goes back while the reference still counts |
| AddressSlots.SlotTable.DropReference | services/gateway/src/protection.rs:200-223 | the reference goes, and the request with it |
| InferencePermits.NextKeepsInv | services/gateway/src/protection.rs:77-135 | every take and every single return keeps free + held = capacity for the key, admission and execution semaphores, and the line in order |
| InferencePermits.PermitConservation | services/gateway/src/protection.rs:77-135 | in every interleaving conservation holds, execution holders are at most C, admission holders at most C+Q, per key at most K, and executing + waiting + those that just left the line = admission holders + requests that have only their execution permit left |
| InferencePermits.BoundFailsExactly | services/gateway/src/protection.rs:77-135 | executing + waiting exceeds the admission capacity if and only if more requests are between their last two returns than admission permits are free or about to come back from those that left the line |
| InferencePermits.OvershootAtMost | services/gateway/src/protection.rs:77-135 | in no run is it exceeded by more than C |
| InferencePermits.OvershootReached | services/gateway/src/protection.rs:77-135 | for every configuration with K at least 1 some run exceeds it by C |
| InferencePermits.OvershootExactly | services/gateway/src/protection.rs:77-135 | some run exceeds it if and only if K and C are at least 1 |
| InferencePermits.RefusedExactlyAtTheLimit | services/gateway/src/protection.rs:110-130 | in every such state the key and admission limits refuse exactly at their bound, and the first in line is granted exactly when an execution permit is free |
| InferencePermits.EndUndoesEverything | services/gateway/src/protection.rs:77-135 | in every interleaving, once the requests under way are those from before, every counter is as it was |
| InferencePermits.ReleaseReturnsOne | services/gateway/src/protection.rs:77-81 | each release returns one permit or the place in line, and the request is gone with its last permit |
| InferencePermits.Gate.constructor | services/gateway/src/protection.rs:88-102 | C execution permits and C+Q admission permits, saturating |
| InferencePermits.Gate.FindKey | services/gateway/src/protection.rs:110-116 | make the semaphore of the key on first use |
| InferencePermits.Gate.TryKey | services/gateway/src/protection.rs:117 | take a key permit or be refused |
| InferencePermits.Gate.TryAdmission | services/gateway/src/protection.rs:118-122 | take an admission permit or begin to give up |
| InferencePermits.Gate.AwaitExecution | services/gateway/src/protection.rs:123-127 | join the line for an execution permit |
| InferencePermits.Gate.HandOver | services/gateway/src/protection.rs:123-129 | the first in line gets a free execution permit |
| InferencePermits.Gate.TakeUp | services/gateway/src/protection.rs:123-129 | a request takes up the execution permit it was handed |
| InferencePermits.Gate.Drop | services/gateway/src/protection.rs:77-135 | one permit goes back, in the order of a request that took up its execution permit or of one that gave up before |
| RateWindow.Limiter.constructor | services/gateway/src/protection.rs:88-102 | an empty table |
| RateWindow.Limiter.AcceptAddress | services/gateway/src/protection.rs:137-161 | prune, refuse when full, reopen an old window and count, as one decision |
| RateWindow.PruningChangesNothing | services/gateway/src/protection.rs:142-145 | the pruned table decides as a table that is never pruned, as long as no call finds it full and no reading is more than a second behind |
| RateWindow.WindowBound | services/gateway/src/protection.rs:137-161 | at most R grants per window and 4096 entries, as long as no reading is two seconds or more behind an earlier one |
| RateWindow.RateBound | services/gateway/src/protection.rs:137-161 | at most 2R grants in any closed second per address when readings do not go back, and 3R when they go back by at most a second |
| RateWindow.GrantedExactly | services/gateway/src/protection.rs:137-161 | in every reachable state, with readings less than two seconds behind, a call is granted exactly when there is room and its window has fewer than R grants |
| RateExactness.ClockOrderIsNeeded | services/gateway/src/protection.rs:137-145 | for any rate and any readings two seconds apart that reach the lock in the wrong order one window start is granted twice the rate |
| RateExactness.WindowHoldsExactly | services/gateway/src/protection.rs:137-161 | the bound per window holds in all runs with readings at most b behind if and only if R = 0 or b is less than two seconds |
| RateExactness.ThreeWindowsInASecond | services/gateway/src/protection.rs:137-161 | a step back by any d up to a second puts 3R-2 grants of three windows into one closed second, and 3R-1 for a whole second |
| RateExactness.PrunedTwice | services/gateway/src/protection.rs:137-161 | at rate 1 a window pruned twice by later readings gives three grants in a second |
| RateExactness.TwiceHoldsExactly | services/gateway/src/protection.rs:137-161 | the bound of 2R in a closed second holds in all runs with readings at most b behind if and only if R = 0, or b = 0, or R = 1 and b is below 1.5 seconds, or R = 2 and b is below one second |
| AdminAuth.FirstFieldUnique | services/gateway/src/admin_auth.rs:219-228 | a one-line field and its rest are read back in one way |
| AdminAuth.CanonicalInjective | services/gateway/src/admin_auth.rs:219-228 | no two requests with one-line fields share a canonical form, so the signature binds every field |
| AdminAuth.EveryCallIsOk | services/gateway/src/admin_auth.rs:133-168 | a request that passes the checks was signed within 60 seconds of the clock reading |
| AdminAuth.Verifier.constructor | services/gateway/src/admin_auth.rs:54-78 | no nonce is stored |
| AdminAuth.Verifier.VerifyRequest | services/gateway/src/admin_auth.rs:133-186 | every refusal in its order, pruning, the replay and capacity checks and the stored expiry |
| AdminAuth.StoreBounded | services/gateway/src/admin_auth.rs:169-185 | the store never exceeds 4096 entries |
| AdminAuth.StoredOrPruned | services/gateway/src/admin_auth.rs:169-185 | an accepted nonce stays stored until a call passes its expiry |
| AdminAuth.AcceptedAtMostOnce | services/gateway/src/admin_auth.rs:149-185 | over every run with a clock that does not go back a signed request is accepted at most once |
| AdminAuth.StoredWhileInsideSkew | services/gateway/src/admin_auth.rs:149-185 | an accepted nonce is stored whenever its timestamp is inside the skew window |
| AdminAuth.StoredUntilPruned | services/gateway/src/admin_auth.rs:169-185 | for any clock, an accepted nonce that is not accepted again is stored if and only if no call reached the store past its expiry |
| AdminAuth.ReplayRefusedExactly | services/gateway/src/admin_auth.rs:169-185 | for any clock, a request that comes again, after any number of refusals, is a replay if and only if no call in between passed the expiry of its nonce |
| AdminAuth.ClockOrderIsNeeded | services/gateway/src/admin_auth.rs:194-201 | a later reading that reaches the store first lets the earlier request be accepted twice |
| KeyStore.Parse | services/gateway/src/api_keys.rs:200-231 | one bad row refuses the snapshot; otherwise the keys are the rows of the gateway's pepper in order, the rest are counted |
| KeyStore.RowsAreCounted | services/gateway/src/api_keys.rs:200-231 | accepted + skipped rows = rows |
| KeyStore.Store.constructor | services/gateway/src/api_keys.rs:92-104 | no snapshot is held |
| KeyStore.Store.ApplyPush | services/gateway/src/api_keys.rs:149-195 | the checks in order; a refusal changes nothing; accepted + skipped = rows of the applied snapshot |
| KeyStore.Store.Find | services/gateway/src/api_keys.rs:273-284 | found if and only if some cached key fits, and then the first one |
| KeyStore.RevisionNeverDecreases | services/gateway/src/key_registry.rs:133-142 | over every run the held revision never decreases and a held snapshot is never lost |
| KeyStore.LowerRevisionsChangeNothing | services/gateway/src/key_registry.rs:133-142 | arrivals of no higher revision change nothing but the time |
| KeyStore.WinnerIsHeld | services/gateway/src/api_keys.rs:149-195 | a store holds the first acceptable snapshot of the highest revision |
| KeyStore.Convergence | services/gateway/src/api_keys.rs:149-231 | for any order, repetition and mix with one body per revision the store holds the acceptable snapshot of highest revision |
| KeyStore.NothingAcceptable | services/gateway/src/api_keys.rs:149-195 | without an acceptable arrival a store stays empty |
| KeyStore.SameArrivalsAgree | services/gateway/src/api_keys.rs:149-231 | two gateways that saw the same snapshots agree on revision, keys and mismatch count |
| RoutingKey.BigEndianRoundTrip | services/gateway/src/routing_key.rs:86-89 | a length reads back from its eight bytes |
| RoutingKey.EncodingInjective | services/gateway/src/routing_key.rs:82-93 | no two field lists, of whatever lengths, share an encoding, for fields shorter than 2^64 bytes |
| RoutingKey.MacInput | services/gateway/src/routing_key.rs:82-93 | the loop feeds the encoding of context, key id, kind and material |
| RoutingKey.OpeningMeaning | services/gateway/src/routing_key.rs:104-116 | an opening exists exactly when a first user message has only messages with roles before it, and holds just those |
| RoutingKey.OpeningIsStable | services/gateway/src/routing_key.rs:104-116 | once a user message is there, appended messages leave the opening unchanged |
| RoutingKey.FindOpening | services/gateway/src/routing_key.rs:104-116 | the loop with its early exits finds the opening |
| RoutingKey.SameInputSameConversation | services/gateway/src/routing_key.rs:64-93 | equal MAC inputs mean one API key and one client key or one opening |
| RoutingKey.LaterTurnsKeepTheInput | services/gateway/src/routing_key.rs:64-116 | every later turn of a conversation has the MAC input of the first |
| PairSupervisor.RankReadyExactly | images/sglang/pair_supervisor.py:193-224 | a rank is ready if and only if its record is valid, fresh and of the live process known for it |
| PairSupervisor.PidsOnlyGrow | images/sglang/pair_supervisor.py:419-428 | remembered pids stay, checked ranks remember theirs, other ranks are untouched |
| PairSupervisor.WorkerReadyEvidence | images/sglang/pair_supervisor.py:405-453 | a ready worker is alive, every rank has a valid record of its remembered process within the budget in force, and the last poll succeeded |
| PairSupervisor.WorkerVerdict | images/sglang/pair_supervisor.py:405-453 | when a poll is made, and exactly when a worker is ready and when it has failed, in terms of the polls so far |
| PairSupervisor.LaunchOrderIsPrefillDecode | images/sglang/pair_supervisor.py:357-374 | prefill is launched first, then decode |
| PairSupervisor.SlicesPartition | images/sglang/pair_supervisor.py:357-374 | the GPU slices have the size of their worker, are disjoint and cover all devices |
| PairSupervisor.SnapshotExactly | images/sglang/pair_supervisor.py:455-476 | a snapshot is ready exactly when the model and both workers are, and failed exactly when one failed or the start took too long |
| PairSupervisor.StepKeepsInv | images/sglang/pair_supervisor.py:321-476 | every tick or signal keeps the launch order, the snapshot evidence within the progress timeout and the poll summary, and monitoring goes on only after both workers were ready |
| PairSupervisor.RunSafety | images/sglang/pair_supervisor.py:321-476 | so does every run, and pids, failure and stop never go back |
| PairSupervisor.SupervisorSafety | images/sglang/pair_supervisor.py:321-476 | from the start: decode only after the marker and a ready prefill; ready only with both workers and the model alive, every record fresh within the progress timeout and the last polls successful; never ready after a failure; first pids never change |
| PairSupervisor.Supervisor.constructor | images/sglang/pair_supervisor.py:262-276 | nothing launched, known or failed |
| PairSupervisor.Supervisor.CheckRanks | images/sglang/pair_supervisor.py:414-432 | the rank loop remembers each pid it sees and tells whether a rank failed or is starting |
| PairSupervisor.Supervisor.CheckWorker | images/sglang/pair_supervisor.py:405-453 | child, ranks, then the frontend when its poll is due |
| PairSupervisor.Supervisor.CheckWorkers | images/sglang/pair_supervisor.py:457 | the workers are checked in configuration order |
| PairSupervisor.Supervisor.MonitorOnce | images/sglang/pair_supervisor.py:456-474 | one round publishes the combined state, and a failure also stops |
| Prefetch.CalcBounds | images/sglang/simulator-upstream/src/sglang_simulator/simulation/sglang/cache_controller.py:17-26 | the charge stays within the time given; a short transfer uses it all and moves at least one token, at most one token beyond it |
| Prefetch.CallKeeps | images/sglang/simulator-upstream/src/sglang_simulator/simulation/sglang/cache_controller.py:145-238 | one call never charges more than its budget, its tokens cost at most one token more, and no operation has more tokens than it hit |
| Prefetch.CallUsesItsTime | images/sglang/simulator-upstream/src/sglang_simulator/simulation/sglang/cache_controller.py:145-238 | time is left over only when nothing is carried over or waiting |
| Prefetch.CallInOrder | images/sglang/simulator-upstream/src/sglang_simulator/simulation/sglang/cache_controller.py:145-238 | finished, carried and waiting operations are the live ones from before in their order, so the carried one is never overwritten |
| Prefetch.CallAdvances | images/sglang/simulator-upstream/src/sglang_simulator/simulation/sglang/cache_controller.py:145-183 | a call ends the carried operation or moves it on by at least one token |
| Prefetch.CarriedOperationEnds | images/sglang/simulator-upstream/src/sglang_simulator/simulation/sglang/cache_controller.py:145-183 | so it ends within as many calls as it has tokens left |
| Prefetch.RunLeaves | images/sglang/simulator-upstream/src/sglang_simulator/simulation/sglang/cache_controller.py:145-238 | over any run, with owners terminating what they like: the operations that finish, then those left, are the live ones and the arrivals in order, and only terminated ones are missing |
| Prefetch.EveryOperationEnds | images/sglang/simulator-upstream/src/sglang_simulator/simulation/sglang/cache_controller.py:145-238 | with positive budgets, after as many calls as the first n waiting operations have tokens and one more for each, all of them have finished, in order and before all others, or were terminated |
| Prefetch.NoneIsLeftWaiting | images/sglang/simulator-upstream/src/sglang_simulator/simulation/sglang/cache_controller.py:145-238 | so each of them is finished or terminated, and none waits unless another of its name does |
| Prefetch.Controller.constructor | images/sglang/simulator-upstream/src/sglang_simulator/simulation/sglang/cache_controller.py:36-43 | nothing waits and nothing is carried |
| Prefetch.Controller.ContinueChunk | images/sglang/simulator-upstream/src/sglang_simulator/simulation/sglang/cache_controller.py:145-183 | the carried operation is dropped, moved on or finished |
| Prefetch.Controller.DrainBuffer | images/sglang/simulator-upstream/src/sglang_simulator/simulation/sglang/cache_controller.py:197-238 | the loop transfers waiting operations while time is left |
| Prefetch.Controller.HandlePrefetch | images/sglang/simulator-upstream/src/sglang_simulator/simulation/sglang/cache_controller.py:145-238 | the whole call, which keeps the state valid and its charge within the budget |
| Transfer.CutsMeaning | images/sglang/simulator-upstream/src/sglang_simulator/simulation/sglang/mem_pool_host.py:50-65 | the cuts are exactly the broken positions, in order |
| Transfer.SegmentsAreMaximalRuns | images/sglang/simulator-upstream/src/sglang_simulator/simulation/sglang/mem_pool_host.py:50-65 | the lengths cut the indices into non-empty maximal runs, contiguous on host and device, that cover everything |
| Transfer.MaximalRunsUnique | images/sglang/simulator-upstream/src/sglang_simulator/simulation/sglang/mem_pool_host.py:50-65 | and they are the only lengths that do |
| Transfer.TransferUnits | images/sglang/simulator-upstream/src/sglang_simulator/simulation/sglang/mem_pool_host.py:214-233 | the lengths add up to the page rows, or to the original tokens where tokens count |
| Transfer.SegmentTime | images/sglang/simulator-upstream/src/sglang_simulator/simulation/sglang/mem_pool_host.py:35-47 | a segment costs its overhead plus its bytes at the effective bandwidth, also where the estimate is infinite; an empty one costs no number, and without bandwidth any other an infinity |
| Transfer.TransferTimeClosedForm | images/sglang/simulator-upstream/src/sglang_simulator/simulation/sglang/mem_pool_host.py:236-276 | the summed time is segments × overhead + total bytes / bandwidth, or no number with an empty segment, and an infinity or no number without bandwidth |
| Transfer.TimeIsNumberExactly | images/sglang/simulator-upstream/src/sglang_simulator/simulation/sglang/mem_pool_host.py:214-276 | with bandwidth, the time is the closed one if and only if units have bytes and no segment is without units; otherwise it is no number |
| Transfer.TransfersAreMeasurable | images/sglang/simulator-upstream/src/sglang_simulator/simulation/sglang/mem_pool_host.py:214-276 | it is one for positive sizes and bandwidth, unless a pool that counts tokens has more pages than tokens |
| Transfer.TransferCost | images/sglang/simulator-upstream/src/sglang_simulator/simulation/sglang/mem_pool_host.py:214-276 | units, bytes and time of a transfer in terms of its indices |
| Transfer.Measure | images/sglang/simulator-upstream/src/sglang_simulator/simulation/sglang/mem_pool_host.py:248-262 | the units, bytes and seconds of a transfer, computed segment by segment, in terms of its indices |
| Transfer.Counters.Load | images/sglang/simulator-upstream/src/sglang_simulator/simulation/sglang/mem_pool_host.py:236-262 | a load adds its call, segments, units, bytes and closed-form time, for every pool and bandwidth, or nothing when it moves nothing |
| Transfer.Counters.Backup | images/sglang/simulator-upstream/src/sglang_simulator/simulation/sglang/mem_pool_host.py:265-276 | a backup adds only its closed-form time |
| BudgetSearch.DoublingEndsExactly | images/sglang/simulator-upstream/src/sglang_simulator/simulation/sglang/model_runner.py:157-159 | the doubling loop ends if and only if some power of two reaches the target |
| BudgetSearch.ReachableEndsDoubling | images/sglang/simulator-upstream/src/sglang_simulator/simulation/sglang/model_runner.py:157-159 | for a function that never decreases, reaching the target anywhere makes the doubling end |
| BudgetSearch.Search | images/sglang/simulator-upstream/src/sglang_simulator/simulation/sglang/model_runner.py:157-166 | both loops end; the result reaches the target and is 1 or has a predecessor that does not; without decrease it is the least positive budget |

## Left out

- HTTP serving, TLS, the async runtime, tracing and metrics, except the counters the conservation laws need.
- SHA-256, HMAC, ECDSA, base64, JSON and RFC 3339: function parameters. The claims hold for any such functions.
- git, the registry, Helm, GitHub and Sigstore: trees, printed names, ancestry and trusted runs are parameters.
- Lock poisoning, the overflow of 64-bit sequence numbers and counters, and memory limits.
- The request guard of services/gateway/src/usage.rs that pushes an event when dropped, the retry delay of `deliver` and the timing of `flush`. A flush appears as one more sender that may stop at any time.
- Idle timeouts and upstream errors in the response loop of services/gateway/src/lib.rs, which end a response early.
- The header, URI and global request limits before the address slots: single comparisons.
- The admin API key path of services/gateway/src/admin_auth.rs: one comparison without state.
- The composition of transition releases. Only the inventory keys they reserve are modelled.
- The diff of scripts/affected-release-images.py may follow renames. The model uses the diff without renames that the build and the walk use.
- An image without any input file, for which `input_revision` raises an error.
- services/maintenance-gateway: a simpler copy of the same limiter.
- The supervisor's processes, sockets, diagnostics and shutdown: inputs of each tick. `start` is a step function over ticks and not a class method, because its loops only wait.
- A pid or a number in a rank record that is too large for a C integer or a float. `rank_status` raises OverflowError for it, which its handlers do not catch; the model says failed.
- The HTTP states served by the supervisor, event collection and log review.
- The prefetch queue's storage-hit filter and the release of host memory.
- Simulator hooks, predictors and metrics. Floating point is modelled by real numbers, without rounding.
- Release.IncrementalEqualsFull: takes as given that a published digest depends only on the inputs of its image, as `input_revision` is meant to ensure, and that changed inputs match as printed, which StaleReleases.IncrementalExactly shows is needed.
- RateWindow.RateBound: takes clock readings at most a second behind an earlier one in lock order; RateExactness says what holds for every step back.
- AdminAuth.AcceptedAtMostOnce: takes clock readings in store order as non-decreasing, for the same reason. ReplayRefusedExactly does not.
- AdminAuth.CanonicalInjective: takes fields without line breaks, which header values, methods and paths cannot contain.
- The paging function of a host pool is a parameter.
- InferencePermits.RefusedExactlyAtTheLimit: takes the semaphore to serve its waiters in the order they came, as Tokio documents.
- BudgetSearch.Search: takes some power of two to reach the target. Without one the doubling loop of the source does not end (DoublingEndsExactly).
- RoutingKey.SameInputSameConversation: takes the JSON printer to be injective.
