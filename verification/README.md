# Verified models of the training stack's protocols

This project models the parts of the trainer that are protocols, state machines or index
arithmetic, and proves what callers rely on. Each module follows one component.

- `Wrappers`, `Arithmetic`: what several components share.
- `Buckets`, `NixlRelay`, `NcclBroadcast`: weights are packed into fixed-size buckets and
  moved to the rollout ranks, through a chain of ranks with two buffers each (any number of
  ranks, any interleaving of their steps, remote reads and notifications) or by broadcasts that
  overlap with filling and yielding. Both deliver the weights exactly when no bucket is given one
  name twice; the code keys a bucket's metadata by name and does not check this. After a weight
  too large for a bucket, rank 0 gives up and the chain waits with its last bucket unyielded.
- `ActivationOffload`: the handler that copies groups of activations to the host and back
  during training, with the window map in closed form and, for each stream, what it has still
  to wait for. It is safe for every number of offload groups up to the layers; it really offloads
  each group exactly when there are fewer groups than layers, as the caller ensures, or only one.
- `TokenBucket`, `CircuitBreaker`, `RequestScheduler`, `SingleFlight`, `RequestRetries`: the
  request engine of the judge clients. Each region under a lock is one atomic step. A request the
  breaker turns away frees the slot of a probe in flight; `CircuitBreaker` shows this on an input
  and states exactly when the probe limit holds. An exception that escapes keeps its slot for the
  rest of the half-open period, until a refused attempt happens to free one.
- `PipelineShards`, `QkvSplit`: spreading layers over pipeline ranks, numbering layers and save
  files, and taking fused query-key-value rows apart. The search fails for some layer counts
  that have a positive split, and a model part without layers shifts the layers after it.
- `AnswerScores`, `RewardGroups`: shuffling, chunked scoring and restoring in the reward manager,
  and grouping a batch and writing rewards back.
- `ZoomBox`: clamping and growing a zoom-in region.
- `DataProtoOps`: padding, unpadding, splitting, chunking and concatenating batches.
- `TeacherIndex`: building the offline teacher index over interrupted and resumed runs, loading
  it and reading it.

Code that updates state in place is a method with loops or a class whose methods are proved
against functions on values; the properties of runs are proved about those functions. Clocks,
remote answers, validator verdicts and completion orders are parameters.

## Model

| member | source | states |
|---|---|---|
| `Buckets.ChunksFlatten` | verl/checkpoint_engine/nccl_checkpoint_engine.py:219-277 | closing a bucket when the next weight would overflow it loses, repeats and reorders no weight |
| `Buckets.ChunksBounded` | verl/checkpoint_engine/nixl_checkpoint_engine.py:372-386 | if each weight fits a bucket, no bucket of the split exceeds the bucket size |
| `Buckets.ChunksGreedy` | verl/checkpoint_engine/nixl_checkpoint_engine.py:370-386 | a bucket is closed only because the weight after it would not have fitted |
| `Buckets.NumelLaws` | verl/checkpoint_engine/nixl_checkpoint_engine.py:454-458 | a shape has as many elements as the product over its dimensions, so size is item size times that |
| `Buckets.DecodeDistinct` | verl/checkpoint_engine/nixl_checkpoint_engine.py:454-458 | cutting a run of distinctly named weights out of its bytes by the metadata gives the run back |
| `Buckets.DecodeIgnoresSlack` | verl/checkpoint_engine/nixl_checkpoint_engine.py:454-458 | what is cut out does not depend on bytes an earlier bucket left behind the payload |
| `Buckets.MetaExact` | verl/checkpoint_engine/nixl_checkpoint_engine.py:393-398 | the metadata dictionary has one entry for each distinct name, that of the last weight of the name, so exactly the weights with a later namesake in the bucket are lost |
| `Buckets.PackRoundTrip` | verl/checkpoint_engine/nixl_checkpoint_engine.py:361-411 | unpacking all packed buckets in order returns the given weights if and only if no bucket received two weights of one name |
| `Buckets.RepeatLosesWeight` | verl/checkpoint_engine/nixl_checkpoint_engine.py:393-398 | where that fails: of any two weights of one name that share a bucket, only the second comes back |
| `Buckets.DistinctNamesSuffice` | verl/checkpoint_engine/nixl_checkpoint_engine.py:361-411 | globally distinct names meet that condition for every bucket size |
| `Buckets.PackLayout` | verl/checkpoint_engine/nccl_checkpoint_engine.py:219-277 | in every bucket the slices start at 0, are item-aligned, contiguous and so disjoint, end at the payload, and stay inside the buffer; exactly the final bucket is marked last |
| `NixlRelay.ConfirmKeeps` | verl/checkpoint_engine/nixl_checkpoint_engine.py:161-165 | the notification a publisher takes is the one for its outstanding operation, so the key assertion never fails, and the invariant is kept |
| `NixlRelay.SourceIntact` | verl/checkpoint_engine/nixl_checkpoint_engine.py:202-226 | while a remote read is in flight the predecessor's exposed buffer still holds the bucket the reader is to get |
| `NixlRelay.StepKeeps` | verl/checkpoint_engine/nixl_checkpoint_engine.py:341-498 | every step of every rank, in any interleaving, keeps the invariant over all ranks, links and buffers |
| `NixlRelay.BuffersExclusive` | verl/checkpoint_engine/nixl_checkpoint_engine.py:361-498 | no buffer is filled or read into while a downstream read of it is outstanding or its tensors are still being yielded |
| `NixlRelay.YieldsInOrder` | verl/checkpoint_engine/nixl_checkpoint_engine.py:427-498 | a receiver has yielded a prefix of the packed stream, all of it once it has finished |
| `NixlRelay.Progress` | verl/checkpoint_engine/nixl_checkpoint_engine.py:363-498 | in every reachable state some step is enabled, unless every rank has finished, or rank 0 has given up on a weight too large for a bucket and every receiver waits for metadata that will not come |
| `NixlRelay.GivenUpYields` | verl/checkpoint_engine/nixl_checkpoint_engine.py:367-391 | when rank 0 has given up, every receiver has taken each bucket it published and yielded all but the last of them |
| `NixlRelay.StepUsesWork` | verl/checkpoint_engine/nixl_checkpoint_engine.py:341-498 | a measure over all ranks falls with every step |
| `NixlRelay.RunIsSafe` | verl/checkpoint_engine/nixl_checkpoint_engine.py:341-498 | in every state of every run over any number of ranks no assertion has failed but rank 0's on a weight too large for a bucket, no buffer is written while it is read or yielded, and each receiver has yielded a prefix of the stream in order |
| `NixlRelay.RelayTerminates` | verl/checkpoint_engine/nixl_checkpoint_engine.py:341-498 | every run is finite, with an explicit bound on its steps |
| `NixlRelay.RelayDelivers` | verl/checkpoint_engine/nixl_checkpoint_engine.py:341-498 | a run over the chain that cannot go on has every rank finished if and only if every weight fits a bucket, and then each receiver has yielded exactly the weights given to rank 0 if and only if no bucket was given one name twice; otherwise rank 0 has given up and each receiver has yielded all published buckets but the last |
| `NcclBroadcast.CopyIn` | verl/checkpoint_engine/nccl_checkpoint_engine.py:261-262 | the whole fill buffer afterwards: the weight at its offset and the old bytes elsewhere; the buffer is never the one of an unfinished broadcast |
| `NcclBroadcast.WaitPrevious` | verl/checkpoint_engine/nccl_checkpoint_engine.py:83-90 | waiting for the unfinished broadcast puts the bucket it was started with on the wire, once |
| `NcclBroadcast.SendWeights` | verl/checkpoint_engine/nccl_checkpoint_engine.py:205-277 | succeeds exactly when every weight fits a bucket, and then the wire carries exactly the packed buckets, although two buffers are filled in turn while a broadcast runs; when it fails, it carries every bucket of the weights before the one too large, but the last, whose broadcast has only begun |
| `NcclBroadcast.FlushOnPlan` | verl/checkpoint_engine/nccl_checkpoint_engine.py:229-249 | closing the open bucket because the next weight does not fit in it yields the next bucket of the plan: the last one, if that weight fits in no bucket |
| `NcclBroadcast.CloseOnPlan` | verl/checkpoint_engine/nccl_checkpoint_engine.py:264-277 | what is open when the weights run out is the last bucket of the packing |
| `NcclBroadcast.YieldAll` | verl/checkpoint_engine/nccl_checkpoint_engine.py:319-324 | yields every tensor of one bucket, cut out of the buffer by its metadata, in order |
| `NcclBroadcast.ReceiveWeights` | verl/checkpoint_engine/nccl_checkpoint_engine.py:281-339 | yields the decoding of every broadcast in order, although the next broadcast may be writing the other buffer at any time while a bucket is yielded |
| `NcclBroadcast.UpdateWeights` | verl/checkpoint_engine/nccl_checkpoint_engine.py:205-339 | end to end: if every weight fits, the receiver yields exactly what rank 0 was given if and only if no bucket was given one name twice |
| `ActivationOffload.BuildWindowMap` | verl/utils/activation_offload.py:248-257 | the constructor's loop computes window_map[i] = (i+1)*(N/G) - 1 + min(i+1, N mod G): each window is N/G commits wide, the first N mod G ones one more |
| `ActivationOffload.WindowIncreasing` | verl/utils/activation_offload.py:248-257 | the windows are strictly increasing |
| `ActivationOffload.WindowBounds` | verl/utils/activation_offload.py:248-257 | window i is at least i, at least i + 1 when G < N, and the last one is N - 1 |
| `ActivationOffload.WindowsExact` | verl/utils/activation_offload.py:319-345 | closing window i copies out group i + 1; every such group has been committed by then unless there are two or more offload groups and as many as layers |
| `ActivationOffload.WindowCaller` | verl/utils/activation_offload.py:543 | with G = N - 1, as the caller sets it, window i closes at commit i + 1 |
| `ActivationOffload.AsyncDoubleBufferGroupOffloadHandler.TensorPush` | verl/utils/activation_offload.py:263-283 | a push stores the tensor under the next tag of the current group and keeps the device buffer of a group to be offloaded |
| `ActivationOffload.AsyncDoubleBufferGroupOffloadHandler.TensorPop` | verl/utils/activation_offload.py:285-296 | a pop returns and removes what the tag holds, and fails on a missing or still offloaded tag |
| `ActivationOffload.AsyncDoubleBufferGroupOffloadHandler.BulkOffloadGroup` | verl/utils/activation_offload.py:298-317 | replaces every tensor of the group by its storage key and keeps one host copy per key |
| `ActivationOffload.AsyncDoubleBufferGroupOffloadHandler.OnGroupCommitForward` | verl/utils/activation_offload.py:319-352 | a forward commit lets the copy-out stream wait and starts the first copy-out, and at a closing window waits both ways, drops the group's buffers, copies out the next group and counts |
| `ActivationOffload.AsyncDoubleBufferGroupOffloadHandler.BulkReloadGroup` | verl/utils/activation_offload.py:355-371 | puts back a device copy in the right shape under every tag of the group |
| `ActivationOffload.AsyncDoubleBufferGroupOffloadHandler.OnGroupCommitBackward` | verl/utils/activation_offload.py:373-395 | a backward commit whose window matches waits both ways and reloads the group, and at commit 0 the compute stream waits for the copy-in stream and the counter is cleared |
| `ActivationOffload.CopyGroupOut` | verl/utils/activation_offload.py:302-317 | the loops over the state dictionary give every tag of the group its key and keep the first tensor of each key |
| `ActivationOffload.CopyGroupIn` | verl/utils/activation_offload.py:358-371 | the loops put the recovered tensor of the right shape under every tag of the group and leave the others alone |
| `ActivationOffload.PopKeeps` | verl/utils/activation_offload.py:285-296 | a pop from any group the commit counter has come back to returns the pushed value from the device, its copy-in awaited |
| `ActivationOffload.PopExact` | verl/utils/activation_offload.py:285-296 | for a pop of any live tensor in backward: it fails if and only if the group is still on the host, and otherwise returns the pushed value, a race if and only if the group's copy-in has not been waited for |
| `ActivationOffload.ForwardKeeps` | verl/utils/activation_offload.py:319-352 | a forward commit fails no assertion, misses no window, starts a copy-out only of tensors the copy-out stream has waited for, lets go only buffers whose copy-out the compute stream has waited for, and keeps the invariant |
| `ActivationOffload.BackwardKeeps` | verl/utils/activation_offload.py:373-395 | a backward commit, at any time, fails no assertion, misses no window, starts a copy-in only of host copies that are complete for the copy-in stream, and keeps the invariant |
| `ActivationOffload.EventKeeps` | verl/utils/activation_offload.py:263-395 | every push, commit, and pop from a group at or above the commit counter keeps the invariant, for any number of offload groups from one to the layers |
| `ActivationOffload.TrainingIsSafe` | verl/utils/activation_offload.py:263-395 | over any number of forward and backward rounds, in any order of pops and with any number of offload groups up to the layers: no assertion fails, no window lookup misses, no copy, release or use happens before the stream it needs has been waited for, and every pop returns the value pushed under its tag |
| `ActivationOffload.CopySourceKept` | verl/utils/activation_offload.py:298-345 | while a copy-out may still be reading a group, every live tensor of it is kept in the device buffer, no copy-in of the group has started in that round, and none of any group is under way |
| `ActivationOffload.RoundsComplete` | verl/utils/activation_offload.py:319-395 | whenever a round ends both counters are zero, the handler and the pending copies are empty, and each group below G has been copied out and back exactly once per round |
| `ActivationOffload.OffloadsIffNotEager` | verl/utils/activation_offload.py:319-345 | in every training each group below G has all its tensors on the host only once its window has closed, if and only if G < N or G = 1 |
| `ActivationOffload.EagerKeepsOnDevice` | verl/utils/activation_offload.py:319-345 | the failing input for 2 <= G = N: a tensor pushed into group 1 is still on the device after its window has closed, because the group was copied out before the push |
| `ActivationOffload.FewGroupsResident` | verl/utils/activation_offload.py:354-395 | if the backward pass consumes each group before it steps down, only groups between the closed windows and the commit counter are on the device; with G = N - 1 at most two |
| `TokenBucket.BalanceBounded` | algo/ropd_clients.py:936-983 | under any interleaving of callers and a monotone clock the balance stays in [-max_tokens, max_tokens] |
| `TokenBucket.GrantedFrom` | algo/ropd_clients.py:936-983 | from any state, the tokens granted up to time t are at most what the bucket holds plus what it earns meanwhile |
| `TokenBucket.RateBound` | algo/ropd_clients.py:936-983 | in any stretch of any history whose clock readings lie in [s, t], requests of at most max_tokens are granted at most max_tokens + rate * (t - s), however many oversized calls are interleaved |
| `TokenBucket.RateBoundExact` | algo/ropd_clients.py:936-983 | a fresh bucket lets through at most max_tokens + rate * t of requests of size n by any time t, in every history, if and only if n <= max_tokens |
| `TokenBucket.OversizedEscapesBound` | algo/ropd_clients.py:942-960 | for every bucket and every larger request size, three requests at once are through after the wait of the last and exceed the bound, because debt is clamped at -max_tokens |
| `TokenBucket.SleptEnough` | algo/ropd_clients.py:962-983 | after sleeping for the missing tokens the request is covered |
| `TokenBucket.SyncTokenBucket.Acquire` | algo/ropd_clients.py:936-983 | with nobody else at the bucket a request of at most max_tokens sleeps at most once, for exactly what is missing at the first reading, and is then granted from the level at the last reading, as if nothing had been updated in between |
| `TokenBucket.SyncTokenBucket.LetThrough` | algo/ropd_clients.py:942-960 | an oversized request sleeps once for exactly what is missing and leaves the level less the request, cut off at -max_tokens |
| `CircuitBreaker.BlackOPDProviderCircuitBreaker.AllowRequest` | algo/ropd_clients.py:1003-1019 | the admission decision and the new state: closed admits, open refuses until the cooldown has passed, half-open admits up to the probe limit |
| `CircuitBreaker.BlackOPDProviderCircuitBreaker.RecordSuccess` | algo/ropd_clients.py:1021-1031 | a success resets the error count, and in half-open frees a slot and may close the breaker |
| `CircuitBreaker.BlackOPDProviderCircuitBreaker.RecordRetriableError` | algo/ropd_clients.py:1033-1051 | an error trips the breaker from half-open, on too many in a row, or on the rolling error rate; OpensExactly says the same of what has been reported |
| `CircuitBreaker.HistoryInv` | algo/ropd_clients.py:1003-1075 | in every run the half-open counter is within the probe limit, both probe counters are zero outside half-open, and fewer consecutive errors than the threshold have been seen while closed |
| `CircuitBreaker.AdmitsAfterCooldown` | algo/ropd_clients.py:1003-1019 | once the breaker has opened, nothing is admitted before cooldown_seconds have passed since it last opened |
| `CircuitBreaker.ClosesAfterEnoughWins` | algo/ropd_clients.py:1021-1031 | the breaker closes only on a success that brings the successes of the current half-open period to the probe count, with no probe left in flight |
| `CircuitBreaker.RemembersReports` | algo/ropd_clients.py:1020-1062 | the error count is the number of retriable errors reported since the last success or ignored failure, and the window holds the last outcomes reported since the breaker closed |
| `CircuitBreaker.OpensExactly` | algo/ropd_clients.py:1033-1068 | a closed breaker opens exactly on a retriable error after which so many have followed one another, or the window is full and the share of errors in it reaches the rate; a half-open one on any retriable error; an open one leaves that state exactly on a request after the cooldown |
| `CircuitBreaker.AdmitsExactly` | algo/ropd_clients.py:1003-1018 | a request is let through exactly when the breaker is closed, or the cooldown has passed since it last opened, or it is half-open with fewer probes outstanding than allowed |
| `CircuitBreaker.ClosesExactly` | algo/ropd_clients.py:1020-1031 | a half-open breaker closes exactly on the success that completes the probes of the period and leaves none outstanding |
| `CircuitBreaker.ExactStep` | algo/ropd_clients.py:1003-1075 | a step keeps the half-open counter equal to the probes outstanding if and only if the outcome it records is matched |
| `CircuitBreaker.ProbesCounted` | algo/ropd_clients.py:1003-1075 | the half-open counter equals the outstanding probes all through a run if and only if every outcome recorded in half-open is matched: a caller without a slot, while others hold one, reports only what ends the period |
| `CircuitBreaker.ProbeLimitExact` | algo/ropd_clients.py:1003-1075 | however many callers ask next, no more probes are ever outstanding than half_open_probe_requests, in every state of a run, if and only if every outcome recorded in half-open is matched |
| `CircuitBreaker.LostProbesHold` | algo/ropd_clients.py:1003-1075 | probes that never report keep their slots: while only callers with a slot report, the breaker does not close in that half-open period and lets that many probes fewer through |
| `CircuitBreaker.LostProbesBlock` | algo/ropd_clients.py:1003-1018 | once as many probes as allowed never report, and only callers with a slot report, every later request is refused, whenever it comes |
| `CircuitBreaker.RejectionFreesSlot` | algo/ropd_clients.py:1413-1463 | what the client does breaks that condition: a rejected caller records an ignored failure and frees a slot, so two probes are outstanding under a limit of one |
| `RequestScheduler.BoundedRequestScheduler.TrySchedule` | algo/ropd_scheduler.py:98-123 | one pass of a submitter under the lock: wait when full, refuse after shutdown, else queue with the next sequence number and count |
| `RequestScheduler.BoundedRequestScheduler.TryNext` | algo/ropd_scheduler.py:155-163 | one pass of a worker under the lock: sleep, exit after shutdown with an empty queue, or take the first request |
| `RequestScheduler.BoundedRequestScheduler.BackpressureRate` | algo/ropd_scheduler.py:136-145 | the reported rate lies in [0, 1] and times the submissions gives the backpressure hits |
| `RequestScheduler.PushSorted` | algo/ropd_scheduler.py:27-33 | pushing keeps the queue in (priority, sequence) order |
| `RequestScheduler.StepKeeps` | algo/ropd_scheduler.py:87-171 | every step of submitters, workers and shutdown keeps the invariant |
| `RequestScheduler.HistoryInv` | algo/ropd_scheduler.py:87-171 | in every interleaving the queue never exceeds max_queue_size every accepted request is queued, running at exactly one worker, or finished, and the metrics count the accepted requests and stay within their bounds |
| `RequestScheduler.TakesLeast` | algo/ropd_scheduler.py:155-163 | a worker takes the least queued (priority, sequence) pair |
| `RequestScheduler.TakesByStage` | algo/ropd_scheduler.py:98-163 | with stage priorities nobody takes a verifier request while a teacher or rubricator request is queued, nor a rubricator request while a teacher request is; within a stage, or without priorities, the first that came is taken |
| `RequestScheduler.StagesAreFifo` | algo/ropd_scheduler.py:95-125 | in every run a request is taken at most once, and requests of one stage are taken in order of arrival (all of them when stage priorities are off) |
| `RequestScheduler.MetricsExact` | algo/ropd_scheduler.py:98-145 | the metrics count the requests queued, those whose submitter had to wait and how long these waited, and hold the greatest depth the queue has had |
| `RequestScheduler.CompletedByItsRun` | algo/ropd_scheduler.py:162-171 | a completed future has the outcome of the run of its own request |
| `RequestScheduler.CompletedOnce` | algo/ropd_scheduler.py:162-171 | no future is completed twice |
| `RequestScheduler.ShutdownIsFinal` | algo/ropd_scheduler.py:98-103 | after a shutdown nothing is accepted and every submitter gets the error |
| `RequestScheduler.DrainedAtExit` | algo/ropd_scheduler.py:147-171 | once the last worker has exited, every accepted request has been run and its future completed |
| `RequestScheduler.NobodySleepsThrough` | algo/ropd_scheduler.py:98-163 | no wake-up is lost: when nothing can move, every submitter is answered or was refused after a shutdown, the queue is empty, and the workers have exited if there was a shutdown |
| `RequestScheduler.StepUsesUp` | algo/ropd_scheduler.py:87-171 | every step brings one of finitely many notifications, or leaves the threads fewer steps before the next |
| `RequestScheduler.RunsEnd` | algo/ropd_scheduler.py:87-171 | every run of n submitters ends, with an explicit bound on its steps |
| `SingleFlight.SharedRequests.AcquireInflightRequest` | algo/ropd_clients.py:1356-1363 | returns the listed future, or lists a new one and makes the caller its leader |
| `SingleFlight.StepKeeps` | algo/ropd_clients.py:1211-1245 | every step of every caller keeps the invariant tying map, futures and callers together |
| `SingleFlight.OneLeader` | algo/ropd_clients.py:1356-1391 | in every interleaving at most one caller of a fingerprint is between acquire and complete |
| `SingleFlight.LeadsIffAlone` | algo/ropd_clients.py:1356-1363 | a caller sends its own request if and only if nobody with its fingerprint is between acquire and complete |
| `SingleFlight.OnlyOpenFutures` | algo/ropd_clients.py:1371-1391 | the in-flight map holds only futures that are still pending |
| `SingleFlight.OnlyItsLeaderCompletes` | algo/ropd_clients.py:1383-1391 | only the leader of a future completes it, always finds it pending, and puts in its own outcome |
| `SingleFlight.CompletedOnce` | algo/ropd_clients.py:1371-1391 | no future is completed twice |
| `SingleFlight.FollowersGetTheirLeadersOutcome` | algo/ropd_clients.py:1365-1369 | whoever returns has the outcome of the leader it joined, which had the same fingerprint |
| `SingleFlight.RunsEnd` | algo/ropd_clients.py:1211-1245 | every run ends within four steps for each caller |
| `SingleFlight.NobodyWaitsForEver` | algo/ropd_clients.py:1211-1245 | when nothing can move every caller has returned and the map is empty |
| `RequestRetries.OpenAICompatibleProvider.ExecuteWithRetry` | algo/ropd_clients.py:1823-1902 | the attempts of one inner loop are failures of the transport that may pass (timeout, connection, status 408, 429, 500, 502, 503 or 504, retriable client error) up to a response, another failure, an escaping exception or the last attempt allowed; each is counted and reported as a retriable error, and a response is left to the outer loop |
| `RequestRetries.OpenAICompatibleProvider.CreateTextDirect` | algo/ropd_clients.py:1247-1349 | a call ends with the first attempt that succeeds, fails for good or uses up the retries of its kind; it returns or raises what that amounts to, counts every attempt for what it was, and tells the breaker of each in order: a success, a retriable error, an ignored or a quality failure |
| `RequestRetries.PoorResponse` | algo/ropd_clients.py:1279-1347 | after an unusable response the call stops exactly when the retry budget of that kind is spent |
| `RequestRetries.CallMeans` | algo/ropd_clients.py:1247-1349 | where a call ends, said of the attempts alone: a usable response, an escaping exception, a rejection or another failure for good, max_retries + 1 passing failures in a row, or one unusable response more than its kind has retries |
| `RequestRetries.ReportsInOrder` | algo/ropd_clients.py:1404-1488 | what each attempt tells the breaker, in order |
| `RequestRetries.TransientsOpen` | algo/ropd_clients.py:1033-1068 | from a closed breaker, as many attempts in a row as the threshold that fail in passing leave it open |
| `RequestRetries.TallyBalances` | algo/ropd_clients.py:1404-1488 | each attempt is counted once when started or rejected and once when settled, and reports one outcome to the breaker, unless an exception that is no client error escapes |
| `RequestRetries.CallBalances` | algo/ropd_clients.py:1404-1488 | a call has started + rejections = succeeded + failed, plus one when an exception escapes; only its last attempt can succeed or be rejected |
| `RequestRetries.EscapesHoldSlots` | algo/ropd_clients.py:1404-1488 | within a half-open period each escaped exception takes up a slot for good and each refused attempt, by its own report, frees one: the next attempt is refused exactly when the slots taken at first and the escapes exceed the refusals by the probe limit or more |
| `RequestRetries.EscapesPreventClosing` | algo/ropd_clients.py:1404-1488 | while more attempts have escaped than were refused, no next attempt closes the breaker |
| `RequestRetries.AttemptsBounded` | algo/ropd_clients.py:1263-1349 | a call makes at most (max_retries + 1) * (1 + the sum of the five response budgets) attempts |
| `RequestRetries.CallUnique` | algo/ropd_clients.py:1263-1349 | where a call ends is determined by its attempts |
| `PipelineShards.GetDynamicPipelineShards` | verl/model_merger/megatron_model_merger.py:57-98 | succeeds if and only if 1 <= pp_size <= layer_num and, for three ranks or more, some size of the middle stages leaves the first and the last at least one layer each and no more than that size; the stages are then positive, sum to the layers, share the ceiling of layer_num / pp_size in the middle and differ by one at most at the ends; ValueError exactly when pp_size is not between 1 and layer_num |
| `PipelineShards.LeastMiddle` | verl/model_merger/megatron_model_merger.py:83-95 | some middle size is admissible if and only if ceil(layer_num / pp_size) is, and that is the least admissible one |
| `PipelineShards.DiffGrows` | verl/model_merger/megatron_model_merger.py:83-95 | the sort key grows strictly with the middle size |
| `PipelineShards.ShardsCorrect` | verl/model_merger/megatron_model_merger.py:66-98 | the stages are positive, one per rank, sum to the layers, the middle ones equal ceil(layer_num / pp_size), the ends no larger and at most one layer apart |
| `PipelineShards.LargestShareLeast` | verl/model_merger/megatron_model_merger.py:57-66 | no split of the layers over the ranks has a smaller largest stage |
| `PipelineShards.FiveOverFourFails` | verl/model_merger/megatron_model_merger.py:83-98 | five layers over four ranks end in the index error of an empty list although a positive split exists |
| `PipelineShards.RanksPartition` | verl/model_merger/megatron_model_merger.py:437-452 | every layer, and every save index, belongs to exactly one rank |
| `PipelineShards.OwnedInRange` | verl/model_merger/megatron_model_merger.py:446-452 | every save index a rank writes is below the total put in the file names |
| `PipelineShards.RenumberLayers` | verl/model_merger/megatron_model_merger.py:358-420 | key by key: a local number is moved up by the start and by one more than the largest number of each earlier part, and a key without a layer gets none |
| `PipelineShards.FullPartsNumbered` | verl/model_merger/megatron_model_merger.py:358-420 | when no part is empty and each holds layers 0 to its size - 1, local layer n of part p becomes the start plus the layers of the earlier parts plus n |
| `PipelineShards.NumberingExact` | verl/model_merger/megatron_model_merger.py:365-420 | a rank's keys are numbered with exactly its layers if and only if no model part without layers comes before one with layers |
| `PipelineShards.EmptyPartShifts` | verl/model_merger/megatron_model_merger.py:365-420 | where that fails: an empty part before another moves all layers of that one up by one, a single layer 0 to 1 |
| `QkvSplit.SplitQkv` | verl/model_merger/megatron_model_merger.py:330-354 | the split succeeds if and only if heads, rows and groups divide evenly, and then row by row each fused group is its queries, then its keys, then its values |
| `QkvSplit.FuseInjective` | verl/model_merger/megatron_model_merger.py:330-354 | the fused rows determine the three parts, so the split is the only possible one |
| `QkvSplit.Sizes` | verl/model_merger/megatron_model_merger.py:337-349 | the three split sizes add up to a chunk exactly when the groups share the keys evenly, and are too small otherwise |
| `AnswerScores.SortSorts` | algo/ropd/reward_manager.py:553-567 | the shuffled items are in order of their keys |
| `AnswerScores.SortKeeps` | algo/ropd/reward_manager.py:553-573 | shuffling keeps the items, each once |
| `AnswerScores.RewardManager.ScoreChunk` | algo/ropd/reward_manager.py:638-659 | repeats the same call only after a recoverable error, and gives up on one only after the attempts allowed; returns the scores of the call that came back or the last error |
| `AnswerScores.RewardManager.ScoreChunks` | algo/ropd/reward_manager.py:613-636 | the verifier is given the answers in order in chunks of the size, each repeated only after a recoverable error and within the attempts allowed, and the scores are those of one call with all answers |
| `AnswerScores.RewardManager.ScoreAnswers` | algo/ropd/reward_manager.py:601-611 | the same whatever the chunk size; a recoverable error comes out only after as many failed calls in a row as allowed |
| `AnswerScores.RestoreScoresBySource` | algo/ropd/reward_manager.py:575-599 | succeeds if and only if there are as many scores as items, every item has a slot and every slot an item, and then each slot holds the score of its last item; an index error exactly when the first item without a slot is of a known source |
| `AnswerScores.ShuffleRestores` | algo/ropd/reward_manager.py:553-599 | for every sort key, shuffling, judging and restoring gives every teacher and student answer its own score |
| `AnswerScores.RewardManager.EvaluateAnswers` | algo/ropd/reward_manager.py:348-370 | end to end teacher i and student j get exactly their own scores, for every key, chunk size and pattern of retried errors, or the verifier's error comes out; the verifier has been given each answer once, in the order of the keys |
| `RewardGroups.BuildGroups` | algo/ropd/reward_manager.py:661-698 | succeeds if and only if every row has response tokens and rows of one uid have one prompt, and else raises the error of the first row that has none or another prompt than an earlier one of its uid; the groups have different uids, their prompt and rows in batch order, hold every row and come in the order of their first rows |
| `RewardGroups.GroupsPartition` | algo/ropd/reward_manager.py:661-698 | every batch row is at exactly one place of exactly one group, the one of its uid |
| `RewardGroups.RolloutsExact` | algo/ropd/reward_manager.py:685-692 | the rollouts of a group are rows of its uid, in batch order |
| `RewardGroups.OnePrompt` | algo/ropd/reward_manager.py:677-684 | when no error is raised all rows of a uid have the group's prompt and at least one token |
| `RewardGroups.WriteRewards` | algo/ropd/reward_manager.py:149-166 | each row of the reward tensor holds the reward of that row's own place in its own group at its last response token and zero elsewhere, and no row is left unset |
| `ZoomBox.MaybeResizeBbox` | verl/tools/image_zoom_in_tool.py:205-297 | None exactly when the clamped box is not proper, or is small and the grown box is not proper and large enough after rounding; a large enough request is only clamped; a small one keeps its shape, and its centre wherever that stays inside the image, up to a smaller side of 28 or a full image side, and is rounded outwards; every result is proper, inside the image, contains the clamped request and has both sides at least 28; a small box that fits the image when scaled up and is no longer than 99 to 1 is always returned |
| `ZoomBox.ValidateBbox` | verl/tools/image_zoom_in_tool.py:180-203 | accepts exactly the boxes with positive sides of aspect ratio at most 100 |
| `ZoomBox.TargetSize` | verl/tools/image_zoom_in_tool.py:241-258 | the scale-up and the two scale-downs come to one factor, the least of what brings the smaller side to the minimum and what fills the image in either direction; the target keeps the shape, is no smaller than the box and fits the image |
| `ZoomBox.Place` | verl/tools/image_zoom_in_tool.py:261-274 | centring and shifting gives the nearest position inside the image, which is around the box |
| `ZoomBox.ScaleDown` | verl/tools/image_zoom_in_tool.py:248-258 | scaling down to an image side keeps the shape and still covers the box |
| `DataProtoOps.PadToDivisor` | verl/protocol.py:73-98 | padding adds fewer rows than the divisor, reaches a multiple of it, and row i of every column is row i mod len of the batch |
| `DataProtoOps.PadRoundTrip` | verl/protocol.py:101-105 | unpadding undoes padding |
| `DataProtoOps.Concat` | verl/protocol.py:928-972 | for all parts: parts with the same columns give all their rows one below the other; otherwise which error is raised, and that a missing other column goes unnoticed exactly when there is no tensor batch |
| `DataProtoOps.CutJoins` | verl/protocol.py:916-972 | concatenating the pieces of any cut of a batch gives the batch back |
| `DataProtoOps.Split` | verl/protocol.py:916-925 | pieces of split_size rows, the last one shorter and not empty, that concatenate to the batch |
| `DataProtoOps.Chunk` | verl/protocol.py:875-914 | without auto padding an assertion error unless the length divides evenly, else that many equal pieces; with it, success exactly when the tensor batch gives as many chunks, and which error otherwise; the pieces are those of one cut through tensor and other columns, concatenate to the batch, and have ceil(len / chunks) rows up to the last, or without a tensor batch one row more in the first len mod chunks |
| `DataProtoOps.ChunkTensors` | verl/protocol.py:890-893 | the tensor chunks have ceil(len / chunks) rows up to the last, and there are ceil(len / that) of them |
| `DataProtoOps.SplitOthersInto` | verl/protocol.py:903-904 | cutting by count takes all rows, the first len mod chunks sections one row more |
| `DataProtoOps.EvenChunks` | verl/protocol.py:884-893 | when the length divides evenly, the tensor batch gives exactly the chunks asked for |
| `TeacherIndex.Load` | algo/ropd_teacher_index.py:93-138 | accepts a file if and only if every row has a known schema, non-empty answers and the expected fingerprint and no key occurs twice, and keeps each row's answers under its key |
| `TeacherIndex.LookupMany` | algo/ropd_teacher_index.py:143-158 | returns the first count answers, and fails exactly on a missing key or a count out of range |
| `TeacherIndex.ScanDataset` | scripts/build_teacher_index.py:240-280 | fails if and only if some uid has two prompts, lists every key once, and counts repeated keys and prompts shared by several uids |
| `TeacherIndex.LoadCompletedKeys` | scripts/build_teacher_index.py:293-316 | accepts exactly the loadable files whose rows have enough answers and returns their keys |
| `TeacherIndex.TeacherIndexBuilder.ProcessRecordBatch` | scripts/build_teacher_index.py:382-419 | in whatever order the records complete, each consumed event settles one record and adds a row with exactly the answers produced, or its failure, until none is left or the last event is an interruption |
| `TeacherIndex.TeacherIndexBuilder.GenerateMissingRecords` | scripts/build_teacher_index.py:422-488 | the consumed events settle every pending key exactly once, each with its own row or failure, or stop at an interruption, which may also come when every key is settled |
| `TeacherIndex.TeacherIndexBuilder.BuildIndex` | scripts/build_teacher_index.py:571-655 | one run, for all flags, files and events: when it refuses, with which error, and changes nothing; otherwise it appends exactly what the events settle of the missing keys, its last validation of the file cannot fail, and it exits 130 if and only if interrupted, else 0 if and only if every event gave usable answers, else 1 |
| `TeacherIndex.RowsExact` | scripts/build_teacher_index.py:342-364 | exactly as many answers as asked for, none of them empty, give a row with these answers, in the order settled; every other record is a failure |
| `TeacherIndex.RunMeans` | scripts/build_teacher_index.py:596-655 | a run that is not refused keeps the old rows, adds only dataset keys and leaves a sound file; no dataset key is missing if and only if each missing one was asked for and every answer was usable; it exits 0 if and only if, besides, nobody interrupted |
| `TeacherIndex.LateInterruptionCompletes` | scripts/build_teacher_index.py:440-488 | a run interrupted after its last row exits 130 and leaves a complete index |
| `TeacherIndex.OneEventEach` | scripts/build_teacher_index.py:422-488 | a run that is not interrupted asks the teacher exactly once for each missing key |
| `TeacherIndex.RunsSound` | scripts/build_teacher_index.py:588-600 | over any sequence of a first and resumed runs the file is loadable with one row per key, its keys lie in the dataset, and no resumed run is refused for its file |
| `TeacherIndex.RunsGrow` | scripts/build_teacher_index.py:422-488 | the rows only grow from run to run |
| `TeacherIndex.CompleteAfterCleanRun` | scripts/build_teacher_index.py:582-655 | after a run that nobody interrupts and in which every request gives usable answers, the exit code is 0 and the keys equal the dataset keys, and stay so |
| `TeacherIndex.EveryRecordFound` | algo/ropd_teacher_index.py:143-158 | with a complete index every dataset record finds as many answers as were asked for |

## Left out

- Transports and devices: ZeroMQ, NIXL, NCCL, CUDA, Ray and HTTP are reliable FIFO channels, atomic copies and notify-after-read; a remote read or a broadcast that breaks is not modelled.
- NixlRelay.RelayDelivers: does not model the chain being set up over Ray or a second weight update; `get_notification` overwrites the agent name it is given, which is harmless only because each rank has one successor.
- NcclBroadcast.UpdateWeights: does not state what the receivers have yielded when an oversized weight has made the sender fail; NixlRelay.RelayDelivers does for the chain.
- Conversion of weights to the rollout dtype: weights enter the model already converted.
- Tensors that the offload filter rejects, or that are saved outside the offloaded groups, go around the handler and are not modelled; equal storage keys are taken to mean equal contents.
- ActivationOffload.FewGroupsResident: supposes that the tensors of a group are all popped before the next backward commit; the other offload results do not.
- Pops during a forward pass and pushes during a backward pass (recomputation) are not events of the offload model.
- Base handler `SynchronizedGroupOffloadHandler`: its synchronous push and pop would add only easy members.
- TokenBucket.RateBound: does not bound oversized requests; for every such size the bound fails (RateBoundExact).
- Floating point: time, tokens, scores and coordinates are exact reals; clocks are monotone and sleeps last at least the time asked.
- Backoff delays, token estimates and error snapshots of the request client: they do not influence which attempts are made.
- RequestRetries.OpenAICompatibleProvider.CreateTextDirect: does not decide admission through the breaker's own state, because other callers share it; rejections are part of the attempts' outcomes. EscapesHoldSlots ties them to the breaker for attempts made one after another, and CircuitBreaker takes any interleaving of the reports.
- The Anthropic subclass, which repeats the retry loop with other exceptions.
- `heapq` is the list of its requests in the order it yields them.
- A queued function that never returns: every running request finishes eventually.
- `_split_tensors` for gate and up projections, name conversion and tied embeddings: single-branch facts.
- DataProtoOps.Concat: takes concatenating tensor batches with different columns to raise; the merging of meta information is left out, as are `repeat` and `reorder`.
- DataProtoOps.Chunk: does not cover a tensor batch without rows, for which the number of chunks is up to the tensor library.
- AnswerScores.RewardManager.EvaluateAnswers: takes a verifier that judges answer by answer and answers in order 1 to n. Division by the maximum score and the fallback result are left out, and no claim is made that the score equals a weighted pass rate, because the parser discards its corrected score.
- Stable choice among several teacher answers and the summaries in the reward control record: easy members.
- The text form of the index file, prompt normalisation and hashing: a file is the list of its rows and digests are compared as they are.
- Configuration, provider resolution, prompts, parsing, artifacts, trainers and metrics summaries.
