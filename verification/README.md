# Verified model of the LLM gateway

The gateway puts one chat-completion API in front of several model providers. This project models
its request path and proves what that path keeps under concurrency, over whole runs and across code
paths that must agree:

- **Single-flight and the response cache** (`SingleFlight`, `Coalescing`, `Provenance`, `Freshness`,
  `Accounting`, `LockTiming`, `SingleCaller`, `Progress`, `Handling`, `Gateway`). Any number of requests on any
  number of replicas share one Redis (a cache and a lock with a token, both with a time to live); each
  replica has its own table of in-flight futures. Streaming requests run beside the others: they read
  and fill the same cache, line by line, and are not coalesced. `SingleFlight` is a state machine whose
  steps are the stretches of code between two awaits: a Redis command is one step in which the server
  executes it (or does not) and another in which the task resumes with the reply (or with an error,
  even if the server did execute it). `Reach(events)` is the state after a legal event sequence, so
  every theorem about it is about every interleaving. `Gateway.Deployment` is the same code in the
  gateway's own shape, with fields updated in place. A deployment remembers the events it has been
  through, each method adds one, and `Valid` says that the fields are what those events lead to; so
  the theorems hold of the fields, and `Execute` carries out every legal run. Its methods are
  `handle_chat_completion` between awaits (`Accept`, `ResumeAfterGet`, `ResumeFollower`,
  `ResumeAfterLock`, `ResumeWaiter`, `OnAnswer`, `ResumeAfterRelease`, `ResumeAfterSet`),
  `_stream_response` between awaits (`AcceptStream`, `ResumeStream`, `RelayLine`, `OnStreamEnd`), and
  the server's side of the commands in `cache.py` (`ServeGet`, `ServeDiscard`, `AcquireLock`,
  `ReleaseLock`, `ServeSet`, `ServeStream`).
- **The sliding-window rate limiter** (`RateLimiter`): the atomic pipeline, its rollback, the expiry
  of the set, client clocks that lag behind the server.
- **Streaming** (`Streaming`, `Anthropic`, `StreamRuns`, and the stream loop in `Fallback`): translating
  provider events, rebuilding a response from chunks, replaying a cached one, accounting for a stream, in
  one go and step by step.
- **Routing, fallback, cost and spend caps** (`Routing`, `Fallback`, `Api`, `Spend`).
- **The cache-key text** (`CacheKey`): sorted, compact, ASCII-only JSON with the string escapes of
  section 7 of RFC 8259.

Time and money are real numbers. Provider calls, provider streams, Redis failures, arrivals, clocks
and delays are arbitrary inputs of a run.

## What the proofs show about the code

Five things that the documentation says, or that one would expect of two code paths for one purpose,
do not hold on all inputs. The code is modelled as it is, and for each of them the exact condition
under which it does hold is proved.

1. `README.md:110-112` and the docstring at `src/llm_gateway/services/gateway.py:68-71` say that of
   concurrent identical misses only the first calls the provider, and that across replicas the lock makes
   a single replica the caller. A task looks at the in-flight table before it asks for the lock and not
   again when it registers its own future; and a task that was refused the lock calls after a failed poll,
   or two seconds after the refusal (`SingleCaller.UnlockedLeaderWaited`). So two identical requests can
   both call, on one replica or on two (`SingleCaller.TwoCallersHappen`). On one replica there is one
   caller at a time exactly when no leader finds an entry in its place
   (`SingleCaller.OneCallerIffNoOverwrite`), and in the whole deployment exactly when none finds an entry
   of its key in the table of any replica (`SingleCaller.OneCallerPerKeyIff`). With timely replies and
   provider calls, such a leader or the owner of the entry lacks the lock
   (`SingleCaller.FinderOrOwnerHasNoLock`). What always holds is that no follower is lost and the books
   balance, and, with that timing, that lock holders exclude each other.
2. A full window is not what the rate limiter protects when a pipeline runs later than its clock was
   read: with a lag, an interval length is safe exactly when it is at most the window minus the lag
   (`RateLimiter.SafeLengthsExactly`). Nor does a rejected call use no quota before its rollback: it can
   have another call rejected that would fit (`RateLimiter.RejectedCallHoldsSlot`).
3. `src/llm_gateway/routers/models.py:15-19` promises to name who in fact serves a model. With a
   wildcard provider in front of one that lists the model, the endpoint names the second and routing
   tries the first (`Routing.OwnerNotTriedFirst`); `Routing.OwnerIsTriedFirst` has the exact condition.
   The registry that `src/llm_gateway/providers/factory.py:117-150` builds today holds no wildcard, so the
   discrepancy needs a registry that is configured otherwise.
4. The two usage folds of a stream can end with different totals (`Streaming.TotalsCanDiffer`);
   `Streaming.TotalsAgreeWhen` says when they agree. Prompt and completion counts, which set the cost,
   always agree.
5. A streamed Anthropic message carries all its text blocks, the whole-response path only the first:
   they agree exactly when the later blocks are empty and the message has an id
   (`Anthropic.StreamedAgreesWithWhole`); a message with two does not (`Anthropic.TwoBlocksDiffer`).

The comment at `src/llm_gateway/services/gateway.py:23-27` says that nothing coordinates across
replicas; the code below it takes a Redis lock, and the model follows the code.

## Model

| member | source | states |
|---|---|---|
| SingleFlight.StepMovesOneTask | src/llm_gateway/services/gateway.py:73-162 | Between two awaits a task changes no other task, neither its place nor its future; nobody's clock moves. |
| SingleFlight.StreamStepMovesOne | src/llm_gateway/routers/chat.py:345-434 | A streaming request changes no other streaming request; no lock, no in-flight table and no coalesced request is touched. |
| Handling.MissJoinsTheCall | src/llm_gateway/services/gateway.py:80-86 | In every reachable state, a task that missed the cache while its replica's table has an entry for its key follows, after its next step, the task that the entry names, which is calling for that very key. |
| Handling.JoinedStays | src/llm_gateway/services/gateway.py:80-86 | In every continuation a follower follows until it returns, with the response its call's future was resolved with or the failure it was rejected with; it never calls a provider. |
| Handling.FollowerReturns | src/llm_gateway/services/gateway.py:82-86 | A follower that goes on returns what the settled future holds and touches neither cache, lock nor table. |
| Handling.SettledWakes | src/llm_gateway/services/gateway.py:82 | A follower can go on as soon as its call's future is settled. |
| Handling.LiveEntryAnswers | src/llm_gateway/services/cache.py:70-88 | A live readable entry answers the request that reads it, with that very response. |
| Handling.StoredAnswersTheNext | src/llm_gateway/services/cache.py:99-104 | What one leader has stored answers, within its time to live and with the cache left alone, the next request for the same key on any replica. |
| Handling.StreamLiveEntryAnswers | src/llm_gateway/routers/chat.py:347-356 | A live readable entry is replayed to the streaming request that reads it. |
| Handling.ReadTells | src/llm_gateway/services/cache.py:70-88 | A served and answered read finds the live entry's response, a live unreadable entry, or nothing exactly if that is what is there; any other read is an error; nothing else changes. |
| Handling.PollTells | src/llm_gateway/services/cache.py:184-191 | The same for a poll, which keeps its deadline. |
| Handling.StreamReadTells | src/llm_gateway/routers/chat.py:347 | The same for the read of a streaming request. |
| Handling.FoundIsReturned | src/llm_gateway/services/gateway.py:75-78 | A response that was found, at first or while waiting, is returned at once. |
| Handling.UnreadableIsDiscarded | src/llm_gateway/services/cache.py:81-86 | An unreadable entry is discarded before the task goes on. |
| Handling.DiscardRemoves | src/llm_gateway/services/cache.py:91-96 | A discard that the server executed removes that entry and no other. |
| Handling.SpoiledEntryIsAMiss | src/llm_gateway/services/cache.py:46-88 | An entry that became unreadable is removed by the next request that reads it, which then goes on as after a miss; it fails no request. |
| Handling.MissGoesOn | src/llm_gateway/services/gateway.py:100-115 | A miss with no call in flight asks for the lock, or fails at once if no provider serves the model. |
| Handling.LockIsGranted | src/llm_gateway/services/cache.py:140-158 | The lock is granted exactly if none is live and the reply arrives; Redis then holds the task's token for the time to live. |
| Handling.LockIsReleased | src/llm_gateway/services/cache.py:128-171 | A release deletes the task's own live lock and nothing else. |
| Handling.RefusedWaits | src/llm_gateway/services/cache.py:118-120 | A refused task polls until two seconds later. |
| Handling.WaiterPollsOn | src/llm_gateway/services/cache.py:182-193 | It polls again a twentieth of a second after a poll that found nothing, as long as there is time. |
| Handling.LeaderRegisters | src/llm_gateway/services/gateway.py:124-127 | A leader puts its pending future into its place in the table, over any entry, and starts with the first provider. |
| Handling.ErrorTriesNext | src/llm_gateway/services/fallback.py:19-32 | A provider error sends the chain on to the next provider. |
| Handling.ChainEnds | src/llm_gateway/services/gateway.py:126-143 | The last answer removes the task's own entry only, rejects the future on failure, goes to the release with the lock, and without it resolves and stores, or fails; the error reports all providers and the last error. |
| Handling.ReleasedSettles | src/llm_gateway/services/gateway.py:133-146 | After the release a response resolves the future and goes to the cache, a failure is returned. |
| Handling.StoreIsKept | src/llm_gateway/services/cache.py:99-104 | A store that the server executed puts the response under the key for the configured time to live. |
| Handling.StoredIsReturned | src/llm_gateway/services/gateway.py:146-162 | After the store the leader returns its response. |
| Handling.ArrivalReads | src/llm_gateway/services/gateway.py:73-75 | A request starts with a cache read, under the providers that routing selects on its replica. |
| Handling.StreamArrivalReads | src/llm_gateway/routers/chat.py:345-347 | So does a streaming request. |
| Handling.StreamMissStarts | src/llm_gateway/routers/chat.py:358-363 | A streaming miss asks the first provider, whoever else is asking for the same, or ends if there is none. |
| Handling.StreamUnreadableIsDiscarded | src/llm_gateway/services/cache.py:81-86 | A streaming request discards an unreadable entry first. |
| Handling.StreamCommandsAct | src/llm_gateway/routers/chat.py:433-434 | A served discard removes the entry; a served store puts the response whose every field is read off the lines, for the configured time to live. |
| Coalescing.InflightEntryIsLive | src/llm_gateway/services/gateway.py:124-140 | In every reachable state an in-flight entry is a pending future whose owner sits in that very slot and is in its provider call. |
| Coalescing.NoLostWaiter | src/llm_gateway/services/gateway.py:80-86 | A follower's future is settled, or its owner (same replica, same key) is still calling, or is releasing the lock with a response in hand. |
| Coalescing.TableEmptyWhenFinished | src/llm_gateway/services/gateway.py:134-140 | When all requests are answered no replica has an in-flight entry, even after one leader overwrote another's. |
| Coalescing.SettlementOrder | src/llm_gateway/services/gateway.py:126-146 | A success has dropped its entry before the lock release begins, and its future stays pending until the release has returned; a failure has rejected the future before the release; storing and recording find the future resolved. |
| Coalescing.FutureSettledOnce | src/llm_gateway/services/gateway.py:124-143 | Over any further event, a future goes from absent to pending to settled and never changes once settled. |
| Provenance.ReturnedResponseWasProduced | src/llm_gateway/services/gateway.py:74-162 | Every response returned to a request was given, in this run, by a provider that a request with the same body, stream flag and virtual key asked. |
| Provenance.CachedResponseWasProduced | src/llm_gateway/services/cache.py:46-104 | The same for every readable cache entry, with unreadable ones appearing at any time and being discarded; an entry of a streaming key was rebuilt from lines that arrived, in this run, on a stream for that key which then completed. |
| Provenance.SharedResponseWasProduced | src/llm_gateway/services/gateway.py:124-143 | Every response that a future hands to its followers was given by a provider that a request with the same key asked. |
| Provenance.ReplayWasStreamed | src/llm_gateway/routers/chat.py:346-356 | What a streaming hit replays was rebuilt from the arrived lines of a completed stream of this run for the same key, and a client that gathers the replayed lines gets that response back. |
| Provenance.RelayedIsDelivered | src/llm_gateway/routers/chat.py:363-368 | In every reachable state what a streaming request has gathered is exactly the lines that arrived for it since its current provider began; no other provider's lines are among them. |
| Freshness.EntryIsDated | src/llm_gateway/services/cache.py:99-104 | Every readable cache entry was stored earlier in the run, under that key, less than the time to live before any moment at which it is still alive. |
| Freshness.FoundIsFresh | src/llm_gateway/services/cache.py:70-88 | Whatever a read or a poll finds was stored under the same key less than the time to live before the read, for any configured time to live. |
| Freshness.ReplayIsFresh | src/llm_gateway/routers/chat.py:347-356 | The same for what a streaming request finds and replays. |
| Accounting.OneRecordPerAnswer | src/llm_gateway/services/gateway.py:42-57 | In every reachable state each successfully answered request, streaming or not, has its record in the log, the right one and only one, and no other request has any. |
| Accounting.RecordsSay | src/llm_gateway/services/metrics.py:37-45 | In every reachable state each record carries its request's virtual key; the model and counts of the returned response, or the requested model and the last usable counts on the lines of a served stream; the cache or the serving provider; and the price configured there for the requested model. |
| Accounting.SharedAnswersAreFree | src/llm_gateway/services/gateway.py:76-86 | Records of hits, followers, waiters and replays cost nothing. |
| Accounting.ServedAreTheCalls | src/llm_gateway/services/gateway.py:126-162 | At any time, the chains and streams that a provider served are as many as the provider calls that gave a response or a complete stream, and their cost is the requested model's price times the usage, summed over those calls. |
| Accounting.BooksBalance | src/llm_gateway/services/gateway.py:145-162 | Conservation: when all coalesced requests are answered, provider-attributed records equal the provider calls that gave a response or a complete stream, and recorded cost equals what those calls cost. |
| LockTiming.TtlCoversChain | src/llm_gateway/services/cache.py:151-155 | The lock's time to live is the least whole number of seconds that covers all timeouts of the chain plus the grace. |
| Fallback.TimeoutsAdd | src/llm_gateway/services/gateway.py:112-114 | Each provider adds its own timeout to the chain's, once. |
| LockTiming.TtlForInstance | src/llm_gateway/services/gateway.py:32 | Two providers with timeouts of 30 and 12.5 seconds are covered by a lock of 48 seconds. |
| LockTiming.OthersSpareLock | src/llm_gateway/services/cache.py:128-171 | No other task's command, acquire or release, touches a live lock that holds a different token. |
| LockTiming.ReleasedLockStaysGone | src/llm_gateway/services/cache.py:161-171 | Once the server has executed a task's release, that task never again has a live lock in Redis, while it resolves, stores and returns. |
| LockTiming.LockOutlastsChain | src/llm_gateway/services/gateway.py:112-142 | With timely replies and provider calls, a holder's lock is its own and unexpired throughout its chain, however many providers fail on the way. |
| LockTiming.LockHoldersExclude | src/llm_gateway/services/gateway.py:88-142 | Under the same timing, two lock holders of one key, on whatever replicas, are never in the provider chain together. |
| SingleCaller.OneCallerIffNoOverwrite | src/llm_gateway/services/gateway.py:80-125 | A run has one caller per replica and key at all times if and only if no task that meets the guard of leading finds an entry in its place. |
| SingleCaller.SecondCallerHasNoLock | src/llm_gateway/services/gateway.py:70-71 | In a timely run, of two callers of one key, on whatever replicas, one does not hold the lock. |
| SingleCaller.OneCallerPerKeyIff | src/llm_gateway/services/gateway.py:68-125 | A run has one caller per key in the whole deployment at all times if and only if no task that meets the guard of leading finds an entry of its key in the table of any replica. |
| SingleCaller.LeadersCall | src/llm_gateway/services/gateway.py:115-125 | A resumed task starts to call exactly if it meets that guard: its lock was granted, or its last poll errored or was unreadable, or its deadline has passed; it holds the lock in the first case only. |
| SingleCaller.UnlockedLeaderWaited | src/llm_gateway/services/cache.py:174-193 | A task that leads without the lock was refused it earlier in the run, and its last poll failed or two seconds have passed since the refusal. |
| SingleCaller.FinderOrOwnerHasNoLock | src/llm_gateway/services/gateway.py:112-142 | In a timely run, a leader that finds an entry of its key lacks the lock, or the entry's owner does. |
| SingleCaller.LockedLeadersFindNothing | src/llm_gateway/services/gateway.py:88-125 | In a timely run in which nobody leads without the lock, no leader finds such an entry, and one task at a time calls for a key in the whole deployment. |
| SingleCaller.TwoCallersHappen | README.md:110-112 | For any two replicas, the same one included, a concrete run in which two identical requests are in their provider call together. |
| Progress.StepLowersMeasure | src/llm_gateway/services/gateway.py:73-162 | Without arrivals, each step of a task lowers a measure over all tasks, and the passing of time leaves it. |
| Progress.RunsAreBounded | src/llm_gateway/services/gateway.py:73-162 | From a reachable state, a run without arrivals takes no more task steps than the measure. |
| Progress.SomeStepIsOpen | src/llm_gateway/services/gateway.py:73-162 | While a request is unanswered, some task can step now or after a finite wait; no deadlock. |
| Progress.FairRunsFinish | src/llm_gateway/services/gateway.py:73-162 | Every endless legal run in which arrivals have stopped and some task steps again while one is unanswered reaches a state with all of them answered. |
| Progress.EveryRequestEnds | src/llm_gateway/services/gateway.py:73-162 | Every reachable state has a continuation without arrivals that ends all requests in a response or an error. |
| Gateway.Deployment.constructor | src/llm_gateway/services/gateway.py:28 | A deployment starts empty, in the state of the empty run. |
| Gateway.Deployment.Step | src/llm_gateway/services/gateway.py:60-162 | The contract that all step methods share: from the state of a run, the fields are updated in place to the state of that run extended by the one event. |
| Gateway.Deployment.Execute | src/llm_gateway/services/gateway.py:60-162 | The methods carry out every legal run, and leave the fields in the state that the run leads to. |
| Gateway.Deployment.ReturnedWasProduced | src/llm_gateway/services/gateway.py:74-162 | At all times, every response that a deployment's requests have returned was given by a provider asked for the same key. |
| Gateway.Deployment.ReplayedWasStreamed | src/llm_gateway/routers/chat.py:346-356 | At all times, every response that a deployment replays was rebuilt from a completed stream with the same key. |
| Gateway.Deployment.FuturesAreInOrder | src/llm_gateway/services/gateway.py:80-143 | At all times the in-flight table names live callers and no follower is lost; when all requests are answered the table is empty. |
| Gateway.Deployment.BooksAreRight | src/llm_gateway/services/gateway.py:42-57 | At all times one right record per answered request; when all are answered the recorded cost is what the providers' calls cost. |
| Gateway.Deployment.HoldersExclude | src/llm_gateway/services/gateway.py:88-142 | After a timely run, two tasks of a deployment that hold the lock for one key are the same task. |
| Gateway.WaitForResult | src/llm_gateway/services/cache.py:174-193 | The poll ends within the timeout plus one read plus one interval, returns exactly what the last read found, and gives up early only on an error or an unreadable entry. |
| Fallback.ExecuteWithFallback | src/llm_gateway/services/fallback.py:13-38 | The result is the first answer that is not a provider error, and `attempted` is exactly the prefix tried; if all fail, the last error is reported. |
| Fallback.StepwiseChainIsTheLoop | src/llm_gateway/services/fallback.py:19-38 | The chain taken one answer at a time, as interleaved runs do, ends where the loop ends. |
| Fallback.StreamChatCompletion | src/llm_gateway/services/streaming.py:52-82 | The output is the lines of one provider only, the first that yields a line, complete to its own end; nothing of earlier ones leaks. |
| Fallback.RelayedReads | src/llm_gateway/services/streaming.py:59-77 | Read off the sources: relayed is the first that gives a line or crashes before one; nobody starts exactly if every source ends or breaks without a line. |
| Fallback.LastErrorIs | src/llm_gateway/services/streaming.py:66-72 | The reported error is that of the last provider that broke before its first line. |
| Fallback.StepwiseStreamIsTheLoop | src/llm_gateway/services/streaming.py:59-82 | Asking the sources one at a time, as interleaved runs do, relays and ends as the loop does. |
| StreamRuns.RunLeavesTheOutcome | src/llm_gateway/routers/chat.py:345-434 | A streaming request taken step by step through its providers ends with the first source that starts, or with all names and the last error; it schedules the rows, and goes on to cache the response, that serving it in one go does; and its record, if it is answered, is the one new entry of the log. |
| Fallback.SameProviderChosen | src/llm_gateway/services/streaming.py:59-77 | Stream fallback and whole-response fallback choose the same provider when every provider starts alike. |
| Routing.SelectionIsStableSort | src/llm_gateway/services/router.py:9-16 | The selection is sorted by priority, holds exactly the capable providers, and keeps registry order inside a priority. |
| Routing.StableSortIsUnique | src/llm_gateway/services/router.py:16 | Those properties determine the sequence. |
| Routing.FilterAfterSort | src/llm_gateway/routers/models.py:14-20 | Sorting all providers and then filtering, as the model endpoints do, gives the routing order. |
| Routing.ListModels | src/llm_gateway/routers/models.py:23-36 | Each listed model is owned by the first provider in priority order that lists it, and no other model is listed. |
| Routing.GetModel | src/llm_gateway/routers/models.py:39-73 | The owner is the first explicit provider, else the first wildcard, else not found. |
| Routing.FirstIsFirst | src/llm_gateway/routers/models.py:47-57 | The explicit owner has no listing provider before it, the wildcard owner no wildcard. |
| Routing.RejectUnknownStreamingModel | src/llm_gateway/routers/chat.py:209-240 | The pre-check rejects exactly the models for which routing selects nothing. |
| Routing.NotFoundIffUnrouted | src/llm_gateway/routers/models.py:60-73 | The endpoint answers 404 exactly for the models for which routing selects nothing. |
| Routing.ListedOwnerIsFirstRouted | src/llm_gateway/routers/models.py:23-59 | For a listed model both endpoints name the first provider in routing order that lists it. |
| Routing.OwnerIsTriedFirst | src/llm_gateway/routers/models.py:15-19 | The named owner is the provider tried first if and only if that provider lists the model or nobody does. |
| Routing.OwnerNotTriedFirst | src/llm_gateway/routers/models.py:48-57 | A registry where the wildcard is tried first and another provider is named. |
| RateLimiter.Limiter.CheckRateLimitStatus | src/llm_gateway/core/rate_limiter.py:29-78 | Answered, a call is allowed exactly if the set holds at most the limit, itself included, and what remains is the rest of the limit, or 0; unanswered, it is open with the full limit or closed, as configured. The new set for each way Redis can fail, rollback included; other keys are untouched. |
| RateLimiter.WindowNeverOverfull | src/llm_gateway/core/rate_limiter.py:32-71 | With pipelines at most `lag` after their clock read, no interval of length up to window minus lag holds more than the limit of accepted calls, over every interleaving, late or lost rollback, and expiry. |
| RateLimiter.LateBurstOverfills | src/llm_gateway/core/rate_limiter.py:32-41 | For every longer interval, and any lag, a run that overfills it, whether calls are dated by their clock or by their execution. |
| RateLimiter.SafeLengthsExactly | src/llm_gateway/core/rate_limiter.py:32-41 | For either dating and any lag, a length is safe in all runs if and only if it is at most window minus lag, or 0 if the lag is longer, or the limit is 0. |
| RateLimiter.ExpiryIsInvisible | src/llm_gateway/core/rate_limiter.py:37-40 | Key expiry drops nothing that the next prune would have kept. |
| RateLimiter.CheckMirrors | src/llm_gateway/core/rate_limiter.py:33-78 | One sequential check answers as a plain log of accepted times would, and keeps the set a mirror of its last window. |
| RateLimiter.CheckInTurn | src/llm_gateway/core/rate_limiter.py:29-78 | Over any trace with a rising clock, each call is answered for the accepted calls of its window: allowed exactly if it fits, with the rest of the limit remaining, or 0; other keys are untouched. |
| RateLimiter.PipelineSays | src/llm_gateway/core/rate_limiter.py:36-41 | What one pipeline leaves in the set: the new call, and of what has not expired all but the scores from 0 to one window before its clock. |
| RateLimiter.NaiveLogAdds | src/llm_gateway/core/rate_limiter.py:54-63 | In the plain log a time is kept exactly if, with it, the window holds at most the limit. |
| RateLimiter.RejectedCallsUseNothing | src/llm_gateway/core/rate_limiter.py:55-63 | In the plain log, which sequential checks with successful rollbacks follow, leaving out the rejected calls changes no other status: they use no quota. |
| RateLimiter.RejectedOnlyWhenFull | src/llm_gateway/core/rate_limiter.py:36-55 | In any run, concurrent or not, an answered call is rejected only if as many earlier calls as the limit hold a slot of its window: accepted, unanswered, or rejected and not rolled back yet. |
| RateLimiter.RejectedCallHoldsSlot | src/llm_gateway/core/rate_limiter.py:55-71 | A run in which a call is rejected although no accepted call is in its window, because a rejected one is not rolled back yet. |
| Streaming.ChunkAccumulator.Feed | src/llm_gateway/services/streaming.py:161-192 | One line updates the fields as one step of the fold does; lines that are no data leave them. |
| Streaming.ChunkAccumulator.Response | src/llm_gateway/services/streaming.py:194-206 | The response built from the fields, with the default id. |
| Streaming.ReplayRebuilds | src/llm_gateway/services/streaming.py:236-254 | Replaying a response and gathering it gives it back if and only if it has an id and exactly one choice. |
| Streaming.GatheredReplays | src/llm_gateway/services/streaming.py:147-254 | For every line sequence, the response gathered from it survives the replay unchanged, creation time aside. |
| Streaming.ReplayIsWellFormed | src/llm_gateway/services/streaming.py:236-254 | A replay ends in its only `[DONE]`, each chunk names id and model, and live counting over it finds the response's usage. |
| Streaming.UsageFoldsAgree | src/llm_gateway/services/streaming.py:85-106 | Over every line sequence the live fold and the accumulator end with equal prompt and completion counts. |
| Streaming.GatheredCounts | src/llm_gateway/services/streaming.py:184-192 | The accumulator's counts are, field by field, the last usable value on the lines, clamped, or 0. |
| Streaming.GatheredFields | src/llm_gateway/services/streaming.py:161-183 | Over every line sequence: the finish reason is the last one of a first choice, else stop; the content is all contents of first choices; id and model are the last that are not empty; a chunk was seen exactly if a line is data. |
| Streaming.ResponseCarries | src/llm_gateway/services/streaming.py:194-206 | The response carries the gathered fields in one choice; only a missing id is replaced. |
| Streaming.TotalsAgreeWhen | src/llm_gateway/services/streaming.py:184-192 | Their totals are equal if and only if no line has a usage object, or the last one has a usable total, or the last usable total before it is the clamped sum of its counts (a missing count being the last usable one before). |
| Streaming.TotalsCanDiffer | src/llm_gateway/services/streaming.py:102-106 | One usage object without a total makes the totals 5 and 0. |
| Streaming.StreamResponse | src/llm_gateway/routers/chat.py:331-434 | A hit is replayed and recorded free; a stream that completes or breaks schedules exactly one record, ok or error; the cache write happens only with ok and holds what the client was sent. |
| Streaming.StreamRecordSays | src/llm_gateway/services/streaming.py:109-144 | The one record of an answered streaming request, field by field, for a replay and for a served stream. |
| Streaming.ErrorsAreNamed | src/llm_gateway/routers/chat.py:158-185 | The error types under which each kind of failure reaches the client, before the first line and after it. |
| Anthropic.StreamChatCompletion | src/llm_gateway/providers/anthropic.py:133-191 | The in-place translation loop emits exactly the lines that the event list stands for. |
| Anthropic.DoneIsAlwaysSent | src/llm_gateway/providers/anthropic.py:187-191 | For every event list the `[DONE]` lines are as many as the stops, and one if there is none. |
| Anthropic.WholeResponseSays | src/llm_gateway/providers/anthropic.py:89-108 | The whole-response path field by field; the finish reason is `length` exactly for a message cut off at its token limit, and `stop` for any other. |
| Anthropic.FirstTextIs | src/llm_gateway/providers/anthropic.py:91 | The text is that of the block with no text block before it. |
| Anthropic.LastDeltaSettles | src/llm_gateway/providers/anthropic.py:169-186 | For every event list with a message delta, the last one settles the gathered finish reason (`length` exactly at the token limit) and counts, with the input count given last before it. |
| Anthropic.NoDeltaIsPlainStop | src/llm_gateway/providers/anthropic.py:133-191 | For every event list without one, the gathered response is a plain stop without counts. |
| Anthropic.DeltasAreTheContent | src/llm_gateway/providers/anthropic.py:165-168 | For every event list the gathered content is all text deltas run together. |
| Anthropic.ChunksNameTheirMessage | src/llm_gateway/providers/anthropic.py:153-164 | Every chunk names the id and the model that a message start gave last, or none and the requested model. |
| Anthropic.StreamedAgreesWithWhole | src/llm_gateway/providers/anthropic.py:89-191 | A message streamed in any cut of deltas and gathered equals the whole-response translation if and only if it has an id and its later text blocks are empty. |
| Anthropic.TwoBlocksDiffer | src/llm_gateway/providers/anthropic.py:91 | A message with two text blocks for which the two translations differ. |
| Anthropic.OneTextBlockAgrees | src/llm_gateway/providers/anthropic.py:89-108 | A message with one text block is the same either way: id, model, content, finish reason and usage. |
| Api.CostNeverNegative | src/llm_gateway/models/api.py:123-139 | For any token counts, negative ones included, and non-negative prices, no cost is below zero. |
| Api.ClampIsLeast | src/llm_gateway/models/api.py:137-139 | Each clamped count is the least that is neither negative nor below what the upstream sent. |
| Api.PricesAreByTheMillion | src/llm_gateway/services/metrics.py:27-36 | A million input tokens cost exactly the input price and a million output tokens the output price; the total does not count. |
| Api.CostsAdd | src/llm_gateway/services/metrics.py:33-36 | The cost of a sum of usages is the sum of their costs, which with the two prices settles every cost. |
| Api.ConfiguredPriceIsUsed | src/llm_gateway/models/provider.py:34 | A model costs what the provider has configured for that very model, and nothing if it has no price. |
| Spend.Ledger.CreateUsageLog | src/llm_gateway/storage/repositories.py:63-67 | The key's spend and the global spend grow by exactly the record's cost; no other key's spend and no earlier row changes. |
| Spend.Ledger.CreateFailedUsageLog | src/llm_gateway/storage/repositories.py:70-89 | An error row is added; no key's spend, not the global spend and no earlier row changes. |
| Spend.Ledger.GetKeySpend | src/llm_gateway/storage/repositories.py:41-49 | The sum over the ok rows of the key. |
| Spend.Ledger.GetGlobalSpend | src/llm_gateway/storage/repositories.py:52-60 | The sum over all ok rows. |
| Spend.Ledger.EnforceSpendCap | src/llm_gateway/routers/chat.py:120-155 | Admits exactly when the key's spend and the global spend are each below their limit, a missing limit being none. |
| Spend.UnderLimitsIsAdmitted | src/llm_gateway/routers/chat.py:129-155 | A request whose key and deployment are below their limits, or have none, is admitted. |
| Spend.ChecksDecide | src/llm_gateway/routers/chat.py:131-154 | Each check passes exactly if there is no limit or the recorded spend is below it, and refuses otherwise. |
| Spend.ChargeIsRecorded | src/llm_gateway/services/metrics.py:33-36 | A charge adds to the key's and the global spend exactly what its clamped counts cost at its prices. |
| Spend.KeySpendsAddUp | src/llm_gateway/storage/repositories.py:41-60 | The per-key sums over all keys add up to the global sum. |
| Spend.OvershootIsBounded | src/llm_gateway/routers/chat.py:120-155 | For prices that are not negative and any token counts, a ledger that starts below a key's or the global limit stays below limit + N * C, where at most N requests are unrecorded at a time and each costs at most C. |
| Spend.SpendNeverFalls | src/llm_gateway/models/api.py:123-139 | For any provider token counts, negative ones included, and prices that are not negative, no key's spend and no global spend ever falls. |
| Spend.CapIsSticky | src/llm_gateway/routers/chat.py:131-154 | For any such counts and prices: once a limit is reached, every later check against it, in every continuation, refuses. |
| CacheKey.EscapeAllUnique | src/llm_gateway/services/cache.py:42 | An escaped string and what follows its closing quote are determined by the text: escapes can be read back. |
| CacheKey.Unique | src/llm_gateway/services/cache.py:42 | A printed value can be told from what follows it. |
| CacheKey.TextIsCanonical | src/llm_gateway/services/cache.py:42 | Two JSON values print to the same text if and only if they are equal up to the order of object keys. |
| CacheKey.EscapeDenotes | src/llm_gateway/services/cache.py:42 | Every character prints as what denotes it by section 7 of RFC 8259, and as itself exactly if it is printable ASCII without quote and backslash. |
| CacheKey.BeforeIsLexicographic | src/llm_gateway/services/cache.py:42 | Keys are sorted in dictionary order of code points. |
| CacheKey.PrintedArray | src/llm_gateway/services/cache.py:42 | The exact text of an array with a string, null and true, and of false. |
| CacheKey.PrintedObject | src/llm_gateway/services/cache.py:42 | The exact text of an object: sorted keys, colon and comma, no space. |
| CacheKey.DecimalInjective | src/llm_gateway/services/cache.py:40-42 | Different key ids print differently. |
| CacheKey.DecimalDenotes | src/llm_gateway/services/cache.py:40-42 | A key id prints as the decimal digits that denote it, after a minus sign if it is negative. |
| CacheKey.KeyTextSays | src/llm_gateway/services/cache.py:39-42 | The hashed text is the list of the body's text and the namespace's, if there is one. |
| CacheKey.CacheTextSeparates | src/llm_gateway/services/cache.py:29-43 | Two cache-key texts are equal if and only if body and namespace (none, an id, or a name) are: no namespace can pose as another or as part of a body. |

## Left out

- Task cancellation and client disconnects: only provider errors and other exceptions end a chain; a cancelled leader would never settle its future.
- Redis commands that are executed after the client has given up on them: a command is executed before the task resumes, or never.
- LockTiming.LockHoldersExclude: assumes that a provider attempt lasts at most its timeout and a granting reply less than the grace; the HTTP client's timeouts apply per phase, so the first is not enforced by the code.
- RateLimiter.WindowNeverOverfull: does not cover calls admitted by fail-open, which are admitted without being recorded; it allows a rollback of any call that was not accepted, which is more than the code makes.
- Spend.OvershootIsBounded: the bound N on unrecorded requests is a hypothesis; the code sets none.
- Spend.SpendNeverFalls: takes prices that are not negative as given; the code does not check the price table.
- Hashing and tokens: SHA-256 is taken to be injective, lock tokens and sorted-set members to be fresh.
- The registry and the cache's time to live of a request are fixed when it arrives; replicas may have different ones.
- Progress.FairRunsFinish: is about the coalesced requests; a streaming request lasts as long as its providers send lines. That the scheduler is fair and Redis and providers answer is for the environment.
- Error rows of failed requests are not in the machine's log: `Streaming.StreamResponse` has those of a streaming request, and the route writes those of the others.
- Provider HTTP calls and the mapping of their status codes: an attempt is an answer, a provider error or another exception; a stream is a line sequence with an ending.
- JSON decoding of chunks: a chunk is an object whose token fields are integers or absent; numeric strings, chunks that are no objects and values that `ChatResponse` rejects are not modelled.
- JSON numbers are compared by their printed text, which leaves out `NaN`, `Infinity`, and lone surrogates in strings; `exclude_none` happens before the text is printed.
- Roles and creation times of streamed chunks, and which of two places in a message-start event its input count is read from.
- The sorting of the listed models by name, response bodies, headers and HTTP status codes other than not found.
- Rounding of stored costs and conversion to floating point: costs are exact.
- Failures to persist a usage record: in `Spend` an admitted request may be dropped without a charge; in `Accounting` a record counts as emitted when it is scheduled.
- Latencies in records, Prometheus metrics, logging and cache-event counters.
- Key creation, expiry and revocation, field validators, the token ceiling, health probes, the CLI and the front end: settled by reading one branch each.
