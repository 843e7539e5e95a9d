# Proofs about Chromium's iOS layer

A Dafny 4.11 model of the parts of Chromium for iOS that carry real state and real
protocols: threads that hand objects to each other, callbacks that re-enter, caches that
report differences, and a URL printer with its parser. `dafny verify dfyconfig.toml`
checks all of it.

Each file models one component, and most have the same three layers:

* a state machine or a specification function that says what each atomic step does,
  with the branches, constants and error cases of the source;
* theorems over every run, every interleaving or every input of it;
* a class with the source's own mutable fields, whose methods are proved to make exactly
  the steps of the machine, so that the theorems are about the code and not beside it.

In `WebThreadRegistry.dfy` this goes in two parts. The class runs one call at a time and is
tied to the atomic registry, event by event; the machine with the interleaved reads and
writes is proved to be a refinement of that same registry. In `DeferredDeletion.dfy` the
class methods are the machine's uninterrupted runs, the flush both as an explicit call and
as a posted task.

| file | component |
|---|---|
| `DeferredDeletion.dfy` | URL data sources dropped on any thread and destroyed on the UI thread |
| `WebThreadRegistry.dfy` | the WebThread registry and its post that leaves the lock out |
| `IoThreadLifecycle.dfy` | registration, delegate and clean-up of the IO thread |
| `CookieCache.dfy` | cookies per (url, name), with reported differences |
| `ChunkedUploader.dfy` | the chunked upload rendezvous and its re-entrant completion |
| `XCallbackUrl.dfy` | x-callback-url printer and parser |
| `HttpCacheClear.dfy` | clearing the HTTP cache in two asynchronous stages |
| `LeakTracker.dfy` | the intrusive list of live objects |
| `CertificatePolicy.dfy` | allowed certificate errors against the log of allowances |
| `NotificationPromo.dfy` | view cap and closing of a promo across reloads |
| `TimeSmoother.dfy` | the two water marks of the time smoother |
| `Prelude.dfy` | the option type and the states of a WebThread id |

Five places where the code and a promise about it, or an expectation of it, differ are
settled by an exact condition:

* `SendResponse` is documented to protect a source whose count is zero from being deleted
  again. Its guard only sees the list, so it misses a source between its last release and
  the list, and one already swapped out of the list; a response there, and only there, can
  lead to a second destruction (`ResponseDestroysTwiceIff`, with runs into both places in
  `WindowWitness` and `BatchWitness`).
* The header of `CookieCache::Update` describes its result in terms of the passed vector.
  For a given call that holds exactly if no two passed cookies share domain, path and name
  but not the value, or the cached tuples differ from those of the first passed cookies
  (`CallAgreesWithHeaderIff`, `HeaderHoldsIffNoClash`, with `ClashWitness`).
* `ChunkedDataStreamUploader::ResetInternal` carries the comment that a reset does not
  affect the external stream state, and clears the final-chunk flag, which is such state.
  An announced end reaches the next read exactly if it was the last announcement and no
  reset came after it (`EndReachesReadIffLastTold`, with `InitForgetsFinalChunk`).
* The IO thread's clean-up calls the delegate whether or not the thread was ever
  registered, so `CleanUp` and `Init` match exactly if it was, or if no delegate is set
  (`CleanUpMatchesInitIffRegistered`, with `UnregisteredWitness`).
* A promo whose id is not set is written to preferences but never read back, so the view
  cap works exactly for the ids that are set (`ViewCapIffIdSet`).

## Model

| member | source | states |
|---|---|---|
| `DeferredDeletion.ZeroCountIsSomewhere` | web/webui/url_data_manager_ios.cc:77-115 | a source has reference count zero if and only if it is in a releasing thread's hands, in the list, in a swapped-out batch, or destroyed |
| `DeferredDeletion.ReleaseConserves` | web/webui/url_data_source_ios_impl.h:39-43 | a release takes the count to zero exactly when it puts the source into the one place it then has |
| `DeferredDeletion.RespondConserves` | web/webui/url_data_source_ios_impl.cc:27-48 | outside the window the guard never raises a count from zero, so a response resurrects nothing |
| `DeferredDeletion.ReferencesAccounted` | web/webui/url_data_source_ios_impl.cc:27-48 | over every run a count is what creations, AddRefs and responses to a still referenced source took, each one reference, less the releases; so each such response is serviced and no other is |
| `DeferredDeletion.ResponseServicedIff` | web/webui/url_data_source_ios_impl.cc:27-48 | a response takes exactly one reference, and touches nothing else, if and only if the source has references or has lost them without being listed; to a listed source it does nothing |
| `DeferredDeletion.MoveConserves` | web/webui/url_data_manager_ios.cc:77-115 | every lock, list, queue and delete step moves a source from one place to the next and neither loses nor doubles it |
| `DeferredDeletion.StepKeepsWake` | web/webui/url_data_manager_ios.cc:107-114 | each atomic step keeps the rule that a non-empty list has a task queued, a thread about to post one, or a flush about to take the lock |
| `DeferredDeletion.StepKeepsInv` | web/webui/url_data_manager_ios.cc:77-138 | lock ownership, place conservation, the wake-up rule and UI-only destruction survive every step of every thread |
| `DeferredDeletion.DestroyedExactlyOnce` | web/webui/url_data_manager_ios.cc:77-115 | in every state reached with responses outside window and batch, a source whose count hit zero is in exactly one of window, list, batch and grave, its destructor ran at most once, and every destructor ran on the UI thread |
| `DeferredDeletion.GuardMissesOnlyWindowAndBatch` | web/webui/url_data_manager_ios.cc:132-138 | of the unreferenced sources that still exist, the list test misses those in the window or in the batch and only those |
| `DeferredDeletion.ResponseSafeIffOutsideWindow` | web/webui/url_data_source_ios_impl.cc:27-48 | a response sent at any moment keeps the count and the places in agreement if and only if the source is neither in the window nor in the batch |
| `DeferredDeletion.UnsafeResponseDestroysTwice` | web/webui/url_data_source_ios_impl.cc:27-48 | a response to any source in the window or the batch, in any reachable state, can be continued to a run that destroys the source twice |
| `DeferredDeletion.ResponseDestroysTwiceIff` | web/webui/url_data_source_ios_impl.cc:27-48 | sent at any moment to a source that still exists, a response can lead to a second destruction if and only if the source is in the window or the batch |
| `DeferredDeletion.WindowWitness` | web/webui/url_data_source_ios_impl.cc:27-48 | two steps from the start reach the window, and a response there breaks the count and can destroy the source twice |
| `DeferredDeletion.BatchWitness` | web/webui/url_data_source_ios_impl.cc:27-48 | a run reaches a swapped-out batch, and a response there breaks the count and can destroy the source twice |
| `DeferredDeletion.RunToDestroyed` | web/webui/url_data_manager_ios.cc:77-115 | from every reachable state some continuation without new releases destroys everything unreferenced, with the UI id accepting or not |
| `DeferredDeletion.NoLostWakeup` | web/webui/url_data_manager_ios.cc:100-115 | in every reachable state with the UI id accepting, a non-empty list has someone coming for it |
| `DeferredDeletion.InternalWorkShrinks` | web/webui/url_data_manager_ios.cc:77-115 | each step of work already begun lowers a measure, so draining cannot go on for ever |
| `DeferredDeletion.SomeoneCanMove` | web/webui/url_data_manager_ios.cc:77-115 | no deadlock: while any thread is inside the protocol or a task waits, some begun step is enabled |
| `DeferredDeletion.StuckIsQuiet` | web/webui/url_data_manager_ios.cc:77-115 | where begun work can go no further, all threads are idle, no task waits, and with the UI id accepting the list is empty |
| `DeferredDeletion.DrainBounded` | web/webui/url_data_manager_ios.cc:77-115 | a continuation without new releases is no longer than the work at its start |
| `DeferredDeletion.DrainDestroysEverything` | web/webui/url_data_manager_ios.cc:77-115 | every continuation without new releases is finite, and where it stops, with the UI id accepting, the list is empty and every unreferenced source has been destroyed exactly once |
| `DeferredDeletion.ExplicitFlushRuns` | web/webui/url_data_manager_ios.cc:77-88 | a direct call, uninterrupted, destroys exactly the listed sources in list order and leaves the list empty, or returns early when there is none |
| `DeferredDeletion.PostedFlushRuns` | web/webui/url_data_manager_ios.cc:110-114 | a posted task, uninterrupted, does what the direct call does, with one task fewer waiting |
| `DeferredDeletion.ShutdownDestroysEverything` | web/init/web_main_loop.mm:179-193 | with the other threads joined, the shutdown call destroys every source still unreferenced, also after the UI loop or its id has stopped |
| `DeferredDeletion.OffThreadDeleteRuns` | web/webui/url_data_manager_ios.cc:91-115 | an uninterrupted last release off the UI thread lists the source last and posts one task exactly when the list was empty and the id accepts |
| `DeferredDeletion.UiReleaseDestroys` | web/webui/url_data_manager_ios.cc:94-98 | a last release on the UI thread destroys the source at once, lists nothing and posts nothing |
| `DeferredDeletion.ClosedIdLosesWakeup` | web/webui/url_data_source_ios_impl.h:27-38 | after the UI id has shut down such a release leaves the source listed with nothing left to run, which is why shutdown flushes explicitly |
| `DeferredDeletion.URLDataManager.constructor` | web/webui/url_data_manager_ios.cc:49-50 | the list starts out absent |
| `DeferredDeletion.URLDataManager.DeleteDataSource` | web/webui/url_data_manager_ios.cc:91-115 | makes exactly the machine's steps: destroy at once on the UI thread, else create the list if absent, append, and post when it was empty |
| `DeferredDeletion.URLDataManager.DeleteDataSources` | web/webui/url_data_manager_ios.cc:77-88 | makes exactly the machine's flush: the early return, or the swap and every deletion in order |
| `DeferredDeletion.URLDataManager.RunPostedTask` | web/webui/url_data_manager_ios.cc:110-114 | takes one posted task off the UI queue and makes exactly the machine's run of it |
| `DeferredDeletion.URLDataManager.IsScheduled` | web/webui/url_data_manager_ios.cc:132-138 | answers whether the source is in the list, false while there is no list |
| `WebThreadRegistry.CurrentIdFrom` | web/web_thread_impl.cc:302-317 | the result is the least id bound to the thread, and none is returned only if none is bound |
| `WebThreadRegistry.LaterIdsAreDown` | web/public/thread/web_thread.h:49-67 | while an id is being constructed or destroyed no later id is running and the threads of later ids are gone |
| `WebThreadRegistry.ElisionExcludesLifetimes` | web/web_thread_impl.cc:112-121 | no thread is in a constructor or destructor of an id that another is using without the lock, for any number of ids and threads |
| `WebThreadRegistry.OneLifetimeAtATime` | web/public/thread/web_thread.h:49-67 | nested lifetimes never overlap: at most one constructor or destructor is in progress after any step |
| `WebThreadRegistry.RunnerIsThere` | web/web_thread_impl.cc:127-132 | the runner check cannot fail: an id seen running has a runner, also on the path without the lock |
| `WebThreadRegistry.NextEventFits` | web/web_thread_impl.cc:105-145 | whatever a step decides is what the atomic registry would decide at that moment |
| `WebThreadRegistry.StepMirrors` | web/web_thread_impl.cc:214-239 | after every step the two arrays are what the log replays to, but for a constructor between its two writes, and the log is legal |
| `WebThreadRegistry.StepKeepsShape` | web/web_thread_impl.cc:105-145 | lock ownership, current reads, nested lifetimes and runner presence survive every step |
| `WebThreadRegistry.StepKeepsInv` | web/web_thread_impl.cc:105-145 | shape, mirrored log, delivery and decision counts survive every step |
| `WebThreadRegistry.NoWriteDuringElision` | web/web_thread_impl.cc:112-144 | in every reachable state with a thread in the unlocked section for an id, nobody is writing that id's entries and no constructor or destructor of it may start |
| `WebThreadRegistry.ReadsAreCurrent` | web/web_thread_impl.cc:127-131 | state and runner read in the section, locked or not, still are what the arrays hold, so both paths decide alike |
| `WebThreadRegistry.RefinesAtomicRegistry` | web/web_thread_impl.cc:105-239 | every run of the lock-eliding code is a legal history of the atomic registry, replays to the arrays whenever the lock is free, and delivered to each runner its accepted tasks once and in order |
| `WebThreadRegistry.EveryPostDecidesOnce` | web/web_thread_impl.cc:105-145 | every call is pending or has decided exactly once, and returns the decision it made |
| `WebThreadRegistry.EventsComeFromCalls` | web/web_thread_impl.cc:105-145 | in every run each decision is about the id and task of a call that was made, and each registration and unregistration is one that was made, with its runner |
| `WebThreadRegistry.ElidedIff` | web/web_thread_impl.cc:112-125 | a post leaves the lock out if and only if its thread is bound to some id and to none before the target; otherwise it takes it |
| `WebThreadRegistry.RunnerSurvivesShutdown` | web/web_thread_impl.cc:233-239 | with the lock free an id has a runner if and only if it was ever registered, so being on a thread outlives the shutdown that ends acceptance |
| `WebThreadRegistry.ReplayedState` | web/web_thread_impl.cc:75-100 | after every history an id is shut down, running or uninitialised exactly as its registration and unregistration events say, and its runner is the one it was registered with, shut down or not |
| `WebThreadRegistry.DecidedByLog` | web/web_thread_impl.cc:127-132 | at the end of every history a post is accepted if and only if its target was registered and not unregistered; it then has the registered runner, and deciding changes neither array |
| `WebThreadRegistry.AcceptedIffRegistered` | web/web_thread_impl.cc:127-144 | a post is accepted if and only if it takes effect after its target's construction and before its destruction, and goes to the runner registered there |
| `WebThreadRegistry.WebThreadGlobals.constructor` | web/web_thread_impl.cc:85-103 | all ids start uninitialised and without a runner, with an empty history |
| `WebThreadRegistry.WebThreadGlobals.Register` | web/web_thread_impl.cc:214-231 | the history grows by one registration, the arrays are its replay, and both checks of the constructor hold |
| `WebThreadRegistry.WebThreadGlobals.Unregister` | web/web_thread_impl.cc:233-239 | the history grows by one unregistration, the arrays are its replay, and the runner stays |
| `WebThreadRegistry.WebThreadGlobals.IsThreadInitialized` | web/web_thread_impl.cc:266-275 | true if and only if, in the history of the calls made, the id was registered and not unregistered |
| `WebThreadRegistry.WebThreadGlobals.CurrentlyOn` | web/web_thread_impl.cc:278-285 | true if and only if, in the history of the calls made, the id was registered with a runner of the calling thread, unregistered since or not |
| `WebThreadRegistry.WebThreadGlobals.GetCurrentThreadIdentifier` | web/web_thread_impl.cc:302-317 | the scan finds the least id bound to the calling thread, or none |
| `WebThreadRegistry.WebThreadGlobals.PostTaskHelper` | web/web_thread_impl.cc:105-145 | accepted if and only if the target was registered and not unregistered, the task then goes once to the runner registered there, the lock is left out if and only if the target outlives every id of the caller, and lock and arrays are left as found |
| `WebThreadRegistry.WebThreadGlobals.PostInSection` | web/web_thread_impl.cc:127-139 | the section decides as the history says, delivers an accepted task once, and never finds a running id without a runner |
| `IoThreadLifecycle.StepKeepsInv` | web/web_sub_thread.cc:22-107 | queue order, registration stages and the delegate's bracket survive every step |
| `IoThreadLifecycle.DelegateSeesBracket` | web/web_sub_thread.cc:42-107 | in every run that registers the thread with a delegate set, that delegate sees one Init, then tasks, then cancelled fetchers, then one CleanUp, then the id's shutdown, in this order |
| `IoThreadLifecycle.InitBeforeLateTasks` | web/web_sub_thread.cc:42-53 | a task posted after registration returned never runs before the Init of the delegate bound at registration |
| `IoThreadLifecycle.NoSwapWhileRegistered` | web/web_sub_thread.cc:22-29 | from registration to shutdown the delegate is the one bound at registration and no swap is permitted |
| `IoThreadLifecycle.DelegateIsLastSet` | web/web_sub_thread.cc:22-29 | over every run the delegate is the one last set, and gone after it was last unset |
| `IoThreadLifecycle.TasksRunInOrder` | web/web_sub_thread.cc:42-53 | over every run the tasks that ran and those still queued are, in order, exactly those posted on the runner or, while the id was up, through the registry |
| `IoThreadLifecycle.FetchersCancelledIffRegistered` | web/web_sub_thread.cc:86-97 | the clean-up cancels the fetchers once if the thread was registered, with a delegate or without, and never if it was not |
| `IoThreadLifecycle.CleanUpMatchesInitIffRegistered` | web/web_sub_thread.cc:86-97 | at clean-up the delegate has had as many CleanUps as Inits if and only if the thread was registered or no delegate is set |
| `IoThreadLifecycle.UnregisteredWitness` | web/web_sub_thread.cc:86-97 | a thread started and stopped without being registered gives its delegate one CleanUp and no Init |
| `IoThreadLifecycle.WebSubThread.constructor` | web/web_sub_thread.cc:17-36 | no delegate, no registration, nothing queued |
| `IoThreadLifecycle.WebSubThread.SetIOThreadDelegate` | web/web_sub_thread.cc:22-29 | both checks hold where a swap is permitted, and only the delegate changes |
| `IoThreadLifecycle.WebSubThread.RegisterAsWebThread` | web/web_sub_thread.cc:42-53 | makes the two machine steps: the id runs, then the completion task is queued behind what was posted before |
| `IoThreadLifecycle.WebSubThread.CleanUpThread` | web/web_sub_thread.cc:86-97 | makes the three machine steps in order: cancel fetchers, tell the delegate, give up the id |
| `CookieCache.StrLessTotal` | net/cookies/cookie_cache.cc:55-79 | exactly one of less, greater and equal holds of two strings |
| `CookieCache.StrLessTransitive` | net/cookies/cookie_cache.cc:55-79 | the byte-wise string order is transitive |
| `CookieCache.ValueLessTotal` | net/cookies/cookie_cache.cc:55-79 | each comparator's equivalence is equality of its tuple, neither orders two cookies both ways, and the coarse order implies the fine one |
| `CookieCache.ValueLessTransitive` | net/cookies/cookie_cache.cc:55-79 | both comparators are transitive, hence strict weak orders |
| `CookieCache.StrLessFirstDifference` | net/cookies/cookie_cache.cc:55-79 | one string is less than another if and only if it is at the first difference, or is a proper prefix |
| `CookieCache.ComparatorsAreLexicographic` | net/cookies/cookie_cache.cc:55-79 | the comparators are the lexicographic orders of (domain, path, name) and of (domain, path, name, value) |
| `CookieCache.InsertSpec` | net/cookies/cookie_cache.cc:26-26 | inserting into a sorted set keeps it sorted and adds the cookie exactly if its key was absent |
| `CookieCache.FromVectorKeepsFirsts` | net/cookies/cookie_cache.cc:26-26 | the set built from any vector is sorted and holds exactly the first cookie of every (domain, path, name) |
| `CookieCache.DifferenceIsExact` | net/cookies/cookie_cache.cc:28-38 | on sets sorted by the coarse order the merge under the fine order yields, in order, exactly the cookies whose 4-tuple is on one side only |
| `CookieCache.DifferenceTuples` | net/cookies/cookie_cache.cc:28-41 | the merge is set difference of 4-tuples, empty if and only if one side's tuples are all on the other, and survives being collected in a set again |
| `CookieCache.UpdateReportsDifference` | net/cookies/cookie_cache.cc:24-53 | one call reports the exact difference of 4-tuples, returns false if and only if both sides hold the same, and leaves other keys alone |
| `CookieCache.ReportIsExact` | net/cookies/cookie_cache.cc:28-51 | cookie by cookie, each once and in order: the removals are the cached cookies whose 4-tuple is not among the first passed ones, the additions the first passed ones whose 4-tuple is not cached, and without a change the cached cookies stay |
| `CookieCache.DeltasReplay` | net/cookies/cookie_cache.cc:24-53 | over every run and for every key, applying the reported removals and additions from nothing gives the cached 4-tuples, which are those of the first cookies of the vector last passed for that key |
| `CookieCache.NoClashKeepsTuples` | net/cookies/cookie_cache.cc:26-26 | building the set loses a 4-tuple if and only if two passed cookies share a key and differ in value |
| `CookieCache.CallAgreesWithHeaderIff` | net/cookies/cookie_cache.h:29-42 | for a given cached set and vector the result means what the header says if and only if the vector has no such clash or the cached tuples are not those of its first cookies |
| `CookieCache.HeaderHoldsIffNoClash` | net/cookies/cookie_cache.h:29-42 | the result means what the header says for every cached set if and only if the vector has no such clash |
| `CookieCache.SecondTimeSilent` | net/cookies/cookie_cache.cc:24-41 | after every run a vector passed twice in a row returns false the second time, and the header calls for true then if and only if the vector has a clash |
| `CookieCache.ClashWitness` | net/cookies/cookie_cache.h:33-37 | two cookies of one key with different values, passed twice: the second call returns false where the header calls for true |
| `CookieCache.CookieCache.constructor` | net/cookies/cookie_cache.cc:13-14 | nothing is cached |
| `CookieCache.CookieCache.Update` | net/cookies/cookie_cache.cc:19-53 | what is appended is, each cookie once and in order, exactly the cached cookies no longer passed and the first passed ones not cached; the result tells whether 4-tuples differ; the first passed cookies are cached if they do and the old ones kept if not; other keys stay |
| `ChunkedUploader.FillMovesBytes` | net/chunked_data_stream_uploader.cc:64-97 | what the delegate hands out is what lands in the buffer and is reported, never more than the buffer holds, and a completion has zero bytes only with the final-chunk flag |
| `ChunkedUploader.CallbackFindsIdleStream` | net/chunked_data_stream_uploader.cc:87-95 | when the completion callback runs, the fields are idle already and a read made right there is legal |
| `ChunkedUploader.RunAllKeepsInv` | net/chunked_data_stream_uploader.cc:27-97 | the invariant survives every script of calls, nested callbacks included |
| `ChunkedUploader.DoKeepsInv` | net/chunked_data_stream_uploader.cc:27-97 | the invariant survives every single call with whatever its callback does |
| `ChunkedUploader.BytesConserved` | net/chunked_data_stream_uploader.cc:34-97 | over every script the bytes completed to the network side are, in order, exactly what the script's own answers put into the buffers they were offered, with none kept back between calls |
| `ChunkedUploader.ReadGetsData` | net/chunked_data_stream_uploader.cc:34-85 | a read before the end is announced ends at once with as much of the delegate's answer as fits its buffer, and stays pending if that is nothing |
| `ChunkedUploader.ReadyGetsData` | net/chunked_data_stream_uploader.cc:55-96 | a pending read ends with as much of the announced data as fits its buffer, by one completion before its callback's own calls, and goes on waiting if that is nothing |
| `ChunkedUploader.NoReadOverflows` | net/chunked_data_stream_uploader.cc:73-85 | over every script no read ends with more bytes than the buffer it was given holds |
| `ChunkedUploader.NoCheckFails` | net/chunked_data_stream_uploader.cc:34-65 | over every script no check of the uploader or of its base class fails |
| `ChunkedUploader.EveryReadEndsOnce` | net/chunked_data_stream_uploader.cc:34-97 | a buffer is held if and only if a read is pending, and every read that starts ends exactly once, with no more bytes than fit: at once, by one completion, or dropped by a reset |
| `ChunkedUploader.ZeroMeansFinalChunk` | net/chunked_data_stream_uploader.cc:70-85 | a read ends with zero bytes if and only if the final-chunk flag is set |
| `ChunkedUploader.InitFailsOnceReading` | net/chunked_data_stream_uploader.cc:27-32 | initialisation succeeds if and only if no read ever started, and once one has it fails after every continuation |
| `ChunkedUploader.EndReachesReadIffLastTold` | net/chunked_data_stream_uploader.cc:34-72 | after every script, nested callbacks included, a read ends the stream, at once and with zero bytes, if and only if the last announcement since the last reset was of the final chunk |
| `ChunkedUploader.EndReachesPendingReadIffTold` | net/chunked_data_stream_uploader.cc:55-96 | with a read pending an announcement ends the stream if and only if it is of the final chunk, by one completion of zero bytes that comes before whatever its callback does |
| `ChunkedUploader.InitForgetsFinalChunk` | net/chunked_data_stream_uploader.cc:47-53 | a final chunk announced before initialisation is forgotten by it, announced after it ends the first read |
| `ChunkedUploader.Uploader.constructor` | net/chunked_data_stream_uploader.cc:13-23 | a new uploader is the fresh stream, which meets the invariant |
| `ChunkedUploader.Uploader.ResetInternal` | net/chunked_data_stream_uploader.cc:47-53 | drops the pending buffer and read and forgets the final-chunk flag |
| `ChunkedUploader.Uploader.Init` | net/chunked_data_stream_uploader.cc:27-32 | resets, then succeeds if and only if the stream is still at its front |
| `ChunkedUploader.Uploader.Read` | net/chunked_data_stream_uploader.cc:34-45 | one read of the machine; it stays pending if and only if a callback is stored |
| `ChunkedUploader.Uploader.ReadInternal` | net/chunked_data_stream_uploader.cc:34-45 | settles the new read without firing a completion; all three checks hold |
| `ChunkedUploader.Uploader.UploadWhenReady` | net/chunked_data_stream_uploader.cc:55-62 | sets the flag, and completes a pending read as the machine does, its callback's own calls included |
| `ChunkedUploader.Uploader.Upload` | net/chunked_data_stream_uploader.cc:64-97 | fires one completion exactly if a read was pending and got a count, after clearing the fields; returns what the machine does |
| `XCallbackUrl.UnescapeEscape` | chrome/common/x_callback_url.cc:89-90 | decoding an encoded value gives it back if and only if it is well-formed UTF-8 made of characters the library shows |
| `XCallbackUrl.CutCharLength` | chrome/common/x_callback_url.cc:89-90 | four bytes are enough to see a UTF-8 character, and an ASCII byte ends any other |
| `XCallbackUrl.PrintableReadable` | chrome/common/x_callback_url.cc:89-90 | printable ASCII is decoded whatever else the library chooses to show |
| `XCallbackUrl.AsciiReadable` | chrome/common/x_callback_url.cc:89-90 | an ASCII value comes back if and only if each of its characters is shown |
| `XCallbackUrl.EscapeInjective` | chrome/common/x_callback_url.cc:73-75 | no two different names are encoded alike |
| `XCallbackUrl.EscapeKept` | chrome/common/x_callback_url.cc:57-76 | a name goes through unchanged if and only if every character is unreserved or left alone by the library |
| `XCallbackUrl.ParseAppend` | chrome/common/x_callback_url.cc:87-92 | cutting a query at one of its separators cuts its pairs there, an empty last piece included |
| `XCallbackUrl.ParseAppendAll` | chrome/common/x_callback_url.cc:57-76 | all that was appended parses back, in order, behind all that was there |
| `XCallbackUrl.RecognisedIff` | chrome/common/x_callback_url.cc:22-38 | a URL is recognised if and only if it is valid and its authority is the reserved host: the host of a standard URL, else the path up to its first slash after an optional "//" |
| `XCallbackUrl.CreatedIsXCallback` | chrome/common/x_callback_url.cc:54-79 | every created URL is recognised, whatever the scheme kind, action and query |
| `XCallbackUrl.ActionParts` | chrome/common/x_callback_url.cc:54-55 | an action is cut where its first "?" and "#" stand: the path before either, the query between the two |
| `XCallbackUrl.DifferentActionsDiffer` | chrome/common/x_callback_url.cc:54-55 | actions that differ before the first "?" or "#" give URLs that differ in the path |
| `XCallbackUrl.PrintedInOrder` | chrome/common/x_callback_url.cc:57-76 | for an action without a query of its own the query holds the valid callbacks in the order success, error, cancel, then every parameter in map order, and nothing else |
| `XCallbackUrl.FirstWinsConcat` | chrome/common/x_callback_url.cc:85-92 | inserting pair after pair lets earlier pairs win over later ones |
| `XCallbackUrl.FirstWinsAt` | chrome/common/x_callback_url.cc:89-90 | the first pair of a key is the one that stays |
| `XCallbackUrl.CreatedParses` | chrome/common/x_callback_url.cc:46-80 | for every action and text a created query parses to the action's own pairs, then the valid callbacks, then the parameters |
| `XCallbackUrl.Precedence` | chrome/common/x_callback_url.cc:46-95 | for every action and text the parser returns the action's own query over the reserved entries over the parameters |
| `XCallbackUrl.EncodingLeaves` | chrome/common/x_callback_url.cc:73-75 | no finite set of names is closed under encoding those that need it, so renamed parameters can never stand in for the original ones |
| `XCallbackUrl.ReservedComesBack` | chrome/common/x_callback_url.cc:57-70 | exactly the valid callbacks come back, each under its own name |
| `XCallbackUrl.CreatedComesBackIff` | chrome/common/x_callback_url.cc:46-95 | whatever the library chooses, for an action without a query of its own, parsing what was printed returns the parameters with the valid callbacks laid over them if and only if all names need no encoding and all values that show are well-formed UTF-8 of shown characters |
| `XCallbackUrl.PlainComesBack` | chrome/common/x_callback_url.cc:46-95 | whatever the library chooses, unreserved names with printable ASCII values come back as the parameters with the valid callbacks laid over them |
| `XCallbackUrl.PlainActionHasNoQuery` | chrome/common/x_callback_url.cc:54-55 | an action without '?' has no query of its own |
| `XCallbackUrl.AppendReserved` | chrome/common/x_callback_url.cc:57-70 | the three blocks append exactly the valid callbacks, in their order |
| `XCallbackUrl.AppendParameters` | chrome/common/x_callback_url.cc:72-76 | the loop appends every parameter once, in map order |
| `XCallbackUrl.CreateXCallbackURLWithParameters` | chrome/common/x_callback_url.cc:46-80 | the URL is valid, has the reserved host, a path that ends in the action up to its first "?" or "#", and the action's own query with the callbacks and parameters appended; its closing check holds |
| `XCallbackUrl.ExtractQueryParametersFromXCallbackURL` | chrome/common/x_callback_url.cc:82-95 | the loop collects the parsed pairs, the first of each key staying |
| `HttpCacheClear.BackendAnswered` | net/http_cache_helper.cc:35-57 | whichever way the backend answers, the continuation runs once and the request moves to the doom stage or straight to its reply |
| `HttpCacheClear.RunClearKeepsInv` | net/http_cache_helper.cc:61-91 | the network task keeps the invariant for synchronous and pending answers alike |
| `HttpCacheClear.BackendReadyKeepsInv` | net/http_cache_helper.cc:80-85 | a pending backend answer keeps the invariant |
| `HttpCacheClear.DoomDoneKeepsInv` | net/http_cache_helper.cc:28-32 | a pending doom that completes posts its one reply |
| `HttpCacheClear.ClientRunsKeepsInv` | net/http_cache_helper.cc:50-55 | running a posted reply uses its half of the split callback for the first time |
| `HttpCacheClear.StepKeepsInv` | net/http_cache_helper.cc:28-107 | one place per request, unused halves and due results survive every step of any number of interleaved requests |
| `HttpCacheClear.SplitCallbacksRunOnce` | net/http_cache_helper.cc:43-48 | in every run no split callback is run through both halves |
| `HttpCacheClear.OneReplyEach` | net/http_cache_helper.cc:97-107 | in every run each call has exactly one continuation or reply, and a reply runs on the runner of the client that made the call |
| `HttpCacheClear.RequestsAreCalls` | net/http_cache_helper.cc:97-107 | the requests of a run are its calls, in order, each with its caller |
| `HttpCacheClear.FinishedMeansAnswered` | net/http_cache_helper.cc:97-107 | once both stages of everything have completed, each request has exactly one reply |
| `HttpCacheClear.RepliesCarryTheResult` | net/http_cache_helper.cc:41-56 | every reply carries what the actions of its request say: the doom's result, at once or later, if there was a backend, else the result of getting it |
| `HttpCacheClear.PostedCarryTheResult` | net/http_cache_helper.cc:41-56 | so does every reply still on its way, which goes to the runner of the client that made the call |
| `HttpCacheClear.CacheClearer.constructor` | net/http_cache_helper.cc:97-107 | nothing is in flight |
| `HttpCacheClear.CacheClearer.ClearHttpCache` | net/http_cache_helper.cc:97-107 | posts to the network runner and nothing else |
| `HttpCacheClear.CacheClearer.ClearHttpCacheOnIOThread` | net/http_cache_helper.cc:61-91 | makes the machine's step, calling the second half directly only when the answer was synchronous |
| `HttpCacheClear.CacheClearer.OnBackendReady` | net/http_cache_helper.cc:80-85 | makes the machine's step for a pending answer |
| `HttpCacheClear.CacheClearer.Doom` | net/http_cache_helper.cc:35-57 | posts the synchronous result, waits for a pending one, or posts the error when there is no backend |
| `HttpCacheClear.CacheClearer.PostCallback` | net/http_cache_helper.cc:28-32 | posts the result to the client's runner and never runs it inline |
| `LeakTracker.LiveCount` | components/io_thread/leak_tracker.h:71-73 | for every order of creating and destroying, the number alive is constructions minus destructions, each alive once |
| `LeakTracker.Instances.constructor` | components/io_thread/leak_tracker.h:122-125 | the list starts as a sentinel linked to itself |
| `LeakTracker.Instances.Construct` | components/io_thread/leak_tracker.h:71-71 | the new object goes to the end of the list, which stays circular and linked both ways |
| `LeakTracker.Instances.Destruct` | components/io_thread/leak_tracker.h:73-73 | the object leaves from wherever it stands, the others keep their order and links |
| `LeakTracker.Instances.NumLiveInstances` | components/io_thread/leak_tracker.h:110-118 | the walk terminates and counts constructions minus destructions |
| `LeakTracker.Instances.CheckForLeaks` | components/io_thread/leak_tracker.h:75-108 | passes if and only if nothing is alive, and copies the stacks of the first three alive |
| `CertificatePolicy.PassesIsSubsetTest` | web/security/cert_policy.cc:17-25 | the complement-and-xor expression passes if and only if the error has a flag and every flag of it is allowed |
| `CertificatePolicy.EntryIsLastAllowed` | web/security/cert_policy.cc:27-31 | over every run the stored status is the one most recently allowed for that host and chain since the last clear |
| `CertificatePolicy.JudgedByTheLog` | web/security/certificate_policy_cache.cc:16-34 | over every run a query is allowed if and only if its errors are non-empty and all among those most recently allowed since the last clear |
| `CertificatePolicy.QueriesAreSilent` | web/security/certificate_policy_cache.cc:23-29 | deleting all queries from a run changes no later answer, though queries insert entries |
| `CertificatePolicy.CertificatePolicyCache.constructor` | web/security/certificate_policy_cache.cc:12-12 | nothing is allowed yet |
| `CertificatePolicy.CertificatePolicyCache.AllowCertForHost` | web/security/certificate_policy_cache.cc:16-21 | the cache goes on refining the log with this allowance at its end |
| `CertificatePolicy.CertificatePolicyCache.QueryPolicy` | web/security/certificate_policy_cache.cc:23-29 | the answer is the one the log calls for |
| `CertificatePolicy.CertificatePolicyCache.ClearCertificatePolicies` | web/security/certificate_policy_cache.cc:31-34 | the cache goes on refining the log with a clear at its end |
| `NotificationPromo.ViewsCountShows` | chrome/browser/notification_promo.cc:198-209 | over every run of freshly loaded promos the stored views are the times shown, never above a fixed positive cap, and the first view is set once shown |
| `NotificationPromo.OthersUntouched` | chrome/browser/notification_promo.cc:149-163 | an event for one promo leaves every other promo's record alone |
| `NotificationPromo.ClosedAndFirstViewStick` | chrome/browser/notification_promo.cc:192-205 | whatever follows, a closed promo's record and a first view time never change |
| `NotificationPromo.ClosedNeverShows` | chrome/browser/notification_promo.cc:185-196 | a closed promo is not shown after any continuation |
| `NotificationPromo.ViewCapIffIdSet` | chrome/browser/notification_promo.cc:165-209 | a positive cap bounds the shows over every run if and only if the promo's id is set |
| `NotificationPromo.RecordIsHistory` | chrome/browser/notification_promo.cc:149-205 | over every run the stored record is the history: time of the first show, number of shows, whether ever closed |
| `NotificationPromo.ShowsIff` | chrome/browser/notification_promo.cc:185-218 | a visit shows the promo if and only if it has a text, was never closed, the time is strictly between start and end, the shows so far are below the maximum if there is one, and not more than the maximal seconds passed since the first show if there is a maximum |
| `NotificationPromo.Promo.constructor` | chrome/browser/notification_promo.cc:165-183 | a new promo is unseen and open |
| `NotificationPromo.Promo.InitFromPrefs` | chrome/browser/notification_promo.cc:165-183 | loads the record of this id, or leaves the fields when the id is unset or unrecorded |
| `NotificationPromo.Promo.WritePrefs` | chrome/browser/notification_promo.cc:149-163 | replaces this id's record and merges with all others |
| `NotificationPromo.Promo.HandleViewed` | chrome/browser/notification_promo.cc:198-205 | on a freshly loaded promo that may be shown, the preferences change as one visit |
| `NotificationPromo.Promo.HandleClosed` | chrome/browser/notification_promo.cc:192-196 | on a freshly loaded promo the preferences change as one closing, and not at all if closed already |
| `TimeSmoother.LagIsBounded` | web/navigation/time_smoother.cc:10-23 | for every input sequence, backward jumps included, an output is at least its input and ahead of it by at most the adjusted calls of the current run |
| `TimeSmoother.OutputsAreConsecutive` | web/navigation/time_smoother.cc:14-22 | the outputs since the last reset are the consecutive microseconds up to the high mark |
| `TimeSmoother.LowIsLastUntouched` | web/navigation/time_smoother.cc:14-22 | the low mark is the last time that was returned unchanged |
| `TimeSmoother.ChangedIffUsed` | web/navigation/time_smoother.cc:11-17 | a time is changed if and only if it was handed out already since a time was last returned unchanged |
| `TimeSmoother.NeighboursDiffer` | web/navigation/time_smoother.cc:10-23 | two outputs in a row are equal if and only if the clock's range is used up |
| `TimeSmoother.StrictlyIncreasing` | web/navigation/time_smoother.cc:10-23 | a clock that never steps back gives strictly increasing outputs as long as the range lasts |
| `TimeSmoother.TimeSmoother.constructor` | web/navigation/time_smoother.cc:14-22 | both marks start at the null time |
| `TimeSmoother.TimeSmoother.GetSmoothedTime` | web/navigation/time_smoother.cc:10-23 | the marks go on refining the run of inputs, and the result is the specified output |

## Left out

Stated under a hypothesis, or more weakly than one might wish:

- DeferredDeletion.DestroyedExactlyOnce: `SendResponse`'s check and the reference it protects are one step, and responses fall outside the window between a last release and the list and outside a swapped-out batch; `ResponseDestroysTwiceIff` says that this hypothesis is exactly what is needed. Memory that was freed already is not responded to.
- DeferredDeletion.DrainDestroysEverything: who owns which reference is not tracked; any idle thread may release a positive count, which allows more runs than the program has. A release to zero on the UI thread and the deletion that follows are one step.
- WebThreadRegistry.RefinesAtomicRegistry: lifetimes nest as the id enumeration documents, and a destructor runs on its id's own thread once later ids are joined; `ResetGlobalsForTesting`, which breaks this on purpose, is not a step. Task delay and nestability are passed through and not modelled.
- IoThreadLifecycle.DelegateSeesBracket: one life of one IO thread; a second start of the same thread object, the UI thread's `Run` and the blocking allowances are not modelled.
- ChunkedUploader.NoCheckFails: a read its caller may not make (not initialised, one outstanding, no room) is skipped rather than made, and the delegate's `OnRead` does not call back into the uploader.
- XCallbackUrl.CreatedComesBackIff: which of !'()* stay unencoded in the finished query, and which characters besides printable ASCII are decoded, are parameters that every theorem quantifies over, because the libraries that decide this are not part of this model. The scheme is well formed, and the action holds no zero byte and is taken as canonical already.
- CookieCache.CookieCache.Update: `std::set` insertion and `std::set_difference` are recursive functions over sorted sequences; tree shape and iterators are not modelled. Attributes neither comparator reads are one opaque number.
- NotificationPromo.ViewsCountShows: times are integers and the clock is positive; reading the configuration from JSON or variations parameters is already done.
- TimeSmoother.StrictlyIncreasing: adding a microsecond saturates at the largest 64-bit time, as base::Time does; at that end outputs repeat, which `NeighboursDiffer` states exactly.
- LeakTracker.Instances.CheckForLeaks: the fatal check is a returned flag; log output and the build without leak tracking, where nothing happens and the count is -1, are not modelled.

Assumed of libraries that are not part of this model, each as stated at the head of its file:

- task runners are first in, first out, and a stopped thread first runs what was posted before;
- `RefCountedThreadSafe` calls the destruct trait exactly when the count reaches zero;
- `UploadDataStream` resets before it initialises, answers zero at once after the end of the stream, stores one callback, and clears it before running it;
- `SplitOnceCallback` makes two halves of which one may run, and the disk cache calls back if and only if it returned `ERR_IO_PENDING`;
- `AppendQueryParameter`, `QueryIterator` with UTF-8 as in section 4 of RFC 3629, and the parts of a parsed `GURL`;
- `base::LinkedList` surgery, written out on heap nodes.

Not modelled at all:

- clearing QUIC server information, the time range of a cache clear and its check;
- adding a data source, which is one post to the IO thread, and delivery of a response to the backend;
- chain fingerprints of certificates, which are plain strings here;
- the navigation, find-in-page, cookie-store and web-frame protocols, whose bodies, in Objective-C++ files, are not part of this model;
- user interface, showcase, test helpers, constants and switches;
- the referrer, about-URL, history-state, content-type and SSL-status helpers, the network context owner and the test-server download handler.
