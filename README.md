# transcribe-kaltura: the REACH task reconciler, in Dafny

This project models the core of `reach_fetcher.py`. That program takes captioning
requests (REACH vendor tasks) from Kaltura and submits each one once to a Whisper
transcription service. It then polls the job and attaches the SRT result to the
media entry as a caption asset. The model covers:

- the policies: which model to use (`getModel`), filling in the configuration
  defaults (`getConfig`), which flavor to upload and how its URL is rewritten,
  and how token expiry is classified (`checkToken`, and the same thresholds in
  `getKalturaClient`);
- the two handlers `handlePending` and `handleProcessing`, with `setKalturaError`,
  both as functions over the remote state (`Reconcile`) and as step-by-step
  methods of a `Fetcher` object whose fields are that state (`ReachFetcher`);
- the loop that waits for the caption asset (`CaptionWait`);
- one iteration of the `run` loop (`PollLoop`);
- the signal handlers, as a `Controller` object that holds the `drain`, stop-event
  and exit flags (`Signals`).

The remote systems are state plus answers:

- The vendor task statuses, the transcriber's jobs (keyed by the task id, which
  stands for the reference `str(task.id)`), the caption assets and the number of
  `add_task` calls are the fields of `Fetcher` (the `World` value).
- Everything else the remotes say is an argument to the handler. This covers the
  source language, the flavor list, the flavor URL, whether the lookup and
  `add_task` answered 2xx, the Kaltura exception codes, and the successive
  `captionAsset.get` answers.
- An exception that leaves a handler is an outcome `Crash(fault)`. Nothing in
  `run` catches it, so it ends the process.

Where the intended design and the code differ, the model follows the code:

- A failed job lookup (non-2xx, `None`) in `handlePending` is not checked.
  `len(None["result"])` raises, so the model gives `Crash(LookupFailed)` instead
  of skipping the task (reach_fetcher.py:188-193).
- An existing job moves the task to PROCESSING whatever its status, because
  `skipUpload` is never read (reach_fetcher.py:191-197).
- `captionAsset.add` is outside the `try`. An `ENTRY_ID_NOT_FOUND` from it escapes
  instead of setting 'Entry deleted' (reach_fetcher.py:277).
- `add_task` does not send the source language (transcriber_client.py:22-29),
  so a `Job` has no language.
- An empty-string flavor id fails the `if not flavorId` test like a missing one
  (reach_fetcher.py:180).
- The partner id of a task and the keys of `partner_override` are compared as
  they are. `IntPartnerMissesStringKeys` shows that an integer id never matches
  string keys. The model does not fix which type the SDK returns.

## Model

| member | source | states |
|---|---|---|
| Settings.GetConfig | reach_fetcher.py:338-350 | the result has the three keys; a present `default_model` is kept whatever its value, a missing one becomes 'whisper_large_v3'; each override is kept when present and truthy, otherwise `{}`; every other key is kept |
| Settings.MissingFileDefaults | reach_fetcher.py:339-349 | without a configuration file the three built-in defaults are used |
| Settings.GetConfigIdempotent | reach_fetcher.py:345-349 | filling in the defaults twice gives the same configuration as once |
| ModelPolicy.GetModel | reach_fetcher.py:140-147 | partner+language entry if present, else the language override, else the default; a partner map lacking the language falls through |
| ModelPolicy.GetModelIsConfigured | reach_fetcher.py:144-146 | the chosen model is the default or a value of one of the override maps |
| ModelPolicy.OtherPartnersIrrelevant | reach_fetcher.py:146 | changing another partner's overrides never changes the model chosen for this partner |
| ModelPolicy.IntPartnerMissesStringKeys | reach_fetcher.py:146 | with only string partner keys, an integer partner id gets the language override or the default |
| FlavorPolicy.Scan | reach_fetcher.py:167-178 | the scan over the flavor list (the running minimum with strict `<`), as an index; a found index lies inside the list |
| FlavorPolicy.ScanIsSmallestEarliest | reach_fetcher.py:167-182 | the scan finds nothing exactly when no flavor has extension mp4/mp3/3gp and positive size; otherwise it keeps an eligible flavor that no eligible flavor undercuts and that is the earliest of that size |
| FlavorPolicy.ScanCharacterized | reach_fetcher.py:167-178 | the scan returns index i exactly when i is the smallest, earliest eligible flavor |
| FlavorPolicy.SmallestEarliestUnique | reach_fetcher.py:176 | because the comparison is strict, at most one flavor is the smallest earliest one |
| FlavorPolicy.SelectFlavor | reach_fetcher.py:167-178 | the running-minimum loop ends with the scan's flavor id; None exactly when no flavor is eligible, otherwise the id of the smallest, earliest eligible flavor |
| UrlRewrite.RewriteHost | reach_fetcher.py:186 | the anchored substitution: a URL without a cache prefix is returned as it is; one with a cache prefix now starts with the streaming host and grows by at most one character |
| UrlRewrite.RewriteReplacesPrefix | reach_fetcher.py:186 | a leading `http://vod-cache` or `https://vod-cache` becomes `https://streaming` and the rest of the URL is kept |
| UrlRewrite.RewriteKeepsOtherUrls | reach_fetcher.py:186 | a URL is left unchanged exactly when it does not start with a cache prefix |
| UrlRewrite.NoCachePrefixAfterRewrite | reach_fetcher.py:186 | a rewritten URL starts with the streaming host and no longer matches the pattern |
| UrlRewrite.RewriteIdempotent | reach_fetcher.py:186 | rewriting twice equals rewriting once |
| TokenExpiry.TranscriberTokenWarning | reach_fetcher.py:320-336 | fatal exactly below 0 seconds, week warning exactly below 7 days, month warning exactly from 7 to below 30 days, nothing from 30 days on |
| TokenExpiry.KalturaTokenWarning | reach_fetcher.py:114-123 | never fatal; no check without an expiry; week warning exactly below 7 days (expired included), month warning exactly from 7 to below 30 days |
| TokenExpiry.ChecksAgreeBeforeExpiry | reach_fetcher.py:115-123 | for a token not yet expired both checks give the same warning |
| Signals.AfterSignal | reach_fetcher.py:46-66 | one handler: the stop event is set after it iff it was set or the signal is SIGINT/SIGTERM; the process has exited iff it had, or a stop signal came with the event already set; a stop signal leaves `drain` alone |
| Signals.ReplayStops | reach_fetcher.py:58-66 | after any signal sequence the stop event is set iff it was set or a stop signal came, and the process exited iff it already had, or one stop signal came after the event was set, or two came |
| Signals.ReplayDrain | reach_fetcher.py:46-55 | drain equals what the last SIGUSR1/SIGUSR2 set, or its old value if none came; stop signals never change it |
| Signals.ExitsOnSecondStop | reach_fetcher.py:58-66 | from start-up, the process exits iff at least two stop signals arrived, and the stop event is set iff at least one did |
| Signals.Controller.constructor | reach_fetcher.py:354-357 | the loop starts with drain off, the stop event unset and no exit |
| Signals.Controller.Signal | reach_fetcher.py:46-66 | each signal changes the flags exactly as its installed handler does |
| CaptionWait.AwaitFrom | reach_fetcher.py:294-298 | the wait from re-fetch number `retry` on: when it settles it has made more fetches than before, at most 11 in all, slept at least as long as before, and it settled on READY unless all 11 fetches were made |
| CaptionWait.Await | reach_fetcher.py:291-298 | the whole wait: 1 to 11 fetches; a status other than READY only after the eleventh; an exception from the first fetch ends it with that exception |
| CaptionWait.SleepTotalBound | reach_fetcher.py:294-298 | the sleeps 0, 1, … before n re-fetches add up to n(n-1)/2, at most 45 seconds for ten |
| CaptionWait.AwaitMeaning | reach_fetcher.py:291-301 | the wait stops at the first READY status or after ten re-fetches, with at most 11 fetches and 45 seconds slept; every earlier fetch was not READY; an exception from a fetch ends it |
| CaptionWait.AwaitCaption | reach_fetcher.py:291-298 | the retry loop returns what the wait's definition gives for the same answers |
| Reconcile.PendingStep | reach_fetcher.py:150-220 | `handlePending` over the remote state: it never touches the caption assets, makes at most one `add_task` call, and the only exception that can leave it is the failed lookup, with nothing changed |
| Reconcile.ProcessingStepAsWritten | reach_fetcher.py:223-280 | `handleProcessing` as written: it never touches the jobs, can only set the task to ERROR 'Task failed' (never READY), and adds at most one content-less caption asset |
| Reconcile.ProcessingStep | reach_fetcher.py:223-318 | the corrected `handleProcessing`: it never touches the jobs or makes an `add_task` call, changes no other task's status, and leaves every status as it was when an exception escapes |
| Reconcile.BeforeCaption | reach_fetcher.py:230-277 | the handler gets past `captionAsset.add` only for a found job whose status is 'completed' and an add that did not raise |
| Reconcile.PendingFrame | reach_fetcher.py:150-220 | the pending handler changes only the task's own status and may add that task's job; existing jobs and all captions stay |
| Reconcile.PendingWithoutFlavor | reach_fetcher.py:180-182 | with no eligible flavor the task becomes ERROR 'No flavor found' and nothing else changes (no lookup, no job) |
| Reconcile.PendingLookupFailureRaises | reach_fetcher.py:188-193 | a non-2xx lookup raises before any change |
| Reconcile.PendingSubmitsOnlyWithoutJob | reach_fetcher.py:193-217 | after a lookup, `add_task` is called exactly when no job exists; an existing job of any status only moves the task to PROCESSING |
| Reconcile.PendingSubmission | reach_fetcher.py:199-217 | a successful `add_task` records the job with the policy's model and the rewritten URL, and the task becomes PROCESSING; a failed one sets ERROR 'Error adding new task' and leaves the jobs as they were |
| Reconcile.PendingEndsSubmittedOrFailed | reach_fetcher.py:180-217 | when the handler returns, the task is PROCESSING with a job, or ERROR 'No flavor found' / 'Error adding new task' |
| Reconcile.PendingIdempotent | reach_fetcher.py:188-217 | handling a task again after it was submitted makes no `add_task` call and keeps the job |
| Reconcile.ProcessingKeepsJobs | reach_fetcher.py:223-318 | the processing handler never creates or changes a job |
| Reconcile.ProcessingWithoutJob | reach_fetcher.py:230-246 | a `None` lookup or an empty result changes nothing |
| Reconcile.ProcessingJobFailed | reach_fetcher.py:252-260 | job status 'error' sets ERROR 'Task failed' and creates no caption asset |
| Reconcile.ProcessingJobRunning | reach_fetcher.py:262-264 | any other status than 'error' or 'completed' changes nothing |
| Reconcile.ProcessingAddCaptionRaises | reach_fetcher.py:277 | an exception from `captionAsset.add` escapes whatever its code, before any change |
| Reconcile.ProcessingCompleted | reach_fetcher.py:266-307 | a completed job gives exactly one new caption holding the SRT result and the task becomes READY with its id, whether or not the caption reached READY |
| Reconcile.ProcessingTryRaises | reach_fetcher.py:288-316 | an exception inside the `try` leaves one new caption; ENTRY_ID_NOT_FOUND sets ERROR 'Entry deleted', any other code escapes with the task unchanged |
| Reconcile.ProcessingAddsAtMostOneCaption | reach_fetcher.py:266-316 | one call adds at most one caption asset and leaves the earlier ones unchanged |
| Reconcile.CompletedLeavesProcessing | reach_fetcher.py:288-316 | unless an exception escapes, a completed job leaves its task READY or ERROR 'Entry deleted' |
| Reconcile.AsWrittenCompletedRaises | reach_fetcher.py:277-280 | as written, a completed job adds the caption asset and then raises NameError; the task status is unchanged |
| Reconcile.AsWrittenDuplicatesCaptions | reach_fetcher.py:277-280 | as written, k re-polls of a completed task append k content-less caption assets for the entry and language after the unchanged earlier ones; the task statuses and the jobs stay as they were |
| ReachFetcher.Fetcher.UpdateJob | reach_fetcher.py:217 | `entryVendorTask.updateJob`: the task's status becomes the given one and nothing else changes |
| ReachFetcher.Fetcher.AddCaptionAsset | reach_fetcher.py:266-277 | `captionAsset.add`: the asset is appended to the entry's caption assets and its id is its position |
| ReachFetcher.Fetcher.SetContent | reach_fetcher.py:285-290 | `captionAsset.setContent` with the job's SRT: only that asset's content changes |
| ReachFetcher.Fetcher.SetKalturaError | reach_fetcher.py:132-137 | the task's status becomes ERROR with the message; nothing else changes |
| ReachFetcher.Fetcher.LookupJob | transcriber_client.py:55-70 | None for a non-2xx answer; otherwise the job stored under the reference, or an empty result |
| ReachFetcher.Fetcher.AddTask | transcriber_client.py:20-53 | every call is counted; the job is stored and an id returned exactly on a 2xx answer |
| ReachFetcher.Fetcher.HandlePending | reach_fetcher.py:150-220 | the step-by-step handler has exactly the effect and outcome of `Reconcile.PendingStep` |
| ReachFetcher.Fetcher.TriageJob | reach_fetcher.py:230-277 | the lookup and status branches have the effect of `Reconcile.BeforeCaption`, and give the completed job when they fall through |
| ReachFetcher.Fetcher.HandleProcessingAsWritten | reach_fetcher.py:223-280 | the handler as written has exactly the effect and outcome of `Reconcile.ProcessingStepAsWritten` |
| ReachFetcher.Fetcher.HandleProcessing | reach_fetcher.py:223-318 | the corrected handler has exactly the effect and outcome of `Reconcile.ProcessingStep` |
| PollLoop.HandleTask | reach_fetcher.py:388-398 | the `match` on one listed task, with either handler: existing jobs are never removed or replaced, nothing is submitted while draining, and only a PENDING task can cause an `add_task` call |
| PollLoop.RunTasks | reach_fetcher.py:383-394 | the listed tasks handled in order until one raises: the PROCESSING count never exceeds the number listed, and the `add_task` counter never goes down |
| PollLoop.OtherStatusIgnored | reach_fetcher.py:395-398 | a listed task with another status changes nothing |
| PollLoop.RunCountsProcessing | reach_fetcher.py:381-394 | a cycle that finishes counts exactly the listed PROCESSING tasks |
| PollLoop.DrainSubmitsNothing | reach_fetcher.py:388-393 | while draining, a cycle makes no `add_task` call and leaves the jobs as they were |
| PollLoop.RunKeepsJobs | reach_fetcher.py:383-398 | a cycle never removes or replaces a job; with lookups that see every stored job, a task is therefore submitted at most once across cycles |
| PollLoop.ReadyHandledOnce | reach_fetcher.py:388-394 | a completed task handled once becomes READY with one new caption, and listing it again with that status creates no other caption |
| PollLoop.HandleListed | reach_fetcher.py:388-398 | one listed task is handled exactly as the `match` on its listed status prescribes: PENDING only when not draining, PROCESSING always, any other status not at all |
| PollLoop.RunStopsAtCrash | reach_fetcher.py:383-394 | after a handler raised, no later task of the list is handled |
| PollLoop.AsWrittenCycleCrashes | reach_fetcher.py:277-280 | as written, a cycle reaching a PROCESSING task whose job is completed adds its caption asset, ends with the NameError, and handles no later task |
| PollLoop.Cycle | reach_fetcher.py:374-406 | with the stop event set nothing runs; otherwise the tasks are handled in order (PENDING only when not draining), a handler's exception ends the cycle, and the cycle parks exactly when draining with no PROCESSING task listed |

## Findings

| source | as written | input that shows it | evidently intended | confidence | as-written member | corrected member |
|---|---|---|---|---|---|---|
| reach_fetcher.py:280 | `transcriberClient.build_task_result_url(url)` reads `url`, which `handleProcessing` never binds, so it raises NameError after `captionAsset.add` (line 277) and before `setContent` | a PROCESSING task whose job lookup returns status 'completed', with `captionAsset.add` succeeding: an empty caption asset is added, the task stays PROCESSING and the process ends; every restart adds another asset | drop the line, whose result is only logged, so the `try` block sets the content, waits for the caption and marks the task READY | not executed | Reconcile.AsWrittenDuplicatesCaptions | Reconcile.ProcessingCompleted |

`PollLoop` takes the handler as a parameter. `PollLoop.Cycle` runs the corrected one, and `PollLoop.AsWrittenCycleCrashes` states what a cycle does with the handler as written.

## Left out

- Kaltura sessions (`getKalturaClient`): widget and app-token sessions, SHA-256 token hashing and the printing of the secret are crypto and I/O.
- Argument parsing, environment checks, logging, Sentry reports, JWT decoding and reading the configuration file are process glue. A missing file is the empty document given to `Settings.GetConfig`.
- `time.sleep` and `event.wait` are not modelled as time. Sleeps are added up as seconds (`CaptionWait`), and the park loop is the `parks` flag of a cycle.
- Signals arrive asynchronously in the source and may change `drain` during a cycle. The model applies them between cycles.
- Remote calls other than those named in `Answers` are taken to succeed. These are `vendorCatalogItem.get`, `flavorAsset.list`, `flavorAsset.getUrl`, `entryVendorTask.list` and `updateJob`. If one raised outside a `try`, the exception would end the process. The `updateJob` that marks the task READY (reach_fetcher.py:307) is inside the `try`, so an `ENTRY_ID_NOT_FOUND` from it would set ERROR 'Entry deleted'; the model does not give that call a failure either.
- The transcriber's job lookup (`get_tasks_by_ref_id`) is assumed to see every job stored so far, including one `add_task` created a moment ago (read-after-write). The source decides whether to submit only from what the lookup returns (reach_fetcher.py:188-193). A lookup that has not yet indexed a new job would make it submit the task a second time. `Reconcile.PendingSubmitsOnlyWithoutJob`, `Reconcile.PendingIdempotent` and `PollLoop.RunKeepsJobs` rely on this assumption for "submitted at most once".
- A KeyError from a transcriber answer without `result`, `id`, `status` or `result_srt` is not modelled. Neither is a `add_task` 2xx answer whose JSON body is `null`.
- The `len(tasks)` checks at reach_fetcher.py:235-239 only log and are left out. So are `get_task_result` and `build_task_result_url`, whose result is unused.
- ModelPolicy.GetModel: always takes the configuration as an argument. The fallback to the global `config` when the argument is falsy (line 142) is not modelled, because every caller omits the argument and the global is what it passes here.
- ModelPolicy.GetModel: assumes configuration values of the expected shape. A truthy override that is not an object (kept by `getConfig`) would raise AttributeError in the source. A present `default_model` that is not a string (`null`, a number) is kept by `getConfig` and would be sent to `add_task` as the model. `ModelPolicy.Config` has a string `defaultModel`, and no function converts the `Json` map of `Settings` into a `Config`.
- Settings.GetConfig: JSON numbers are integers only; floats are not modelled.
- TokenExpiry.TranscriberTokenWarning: takes whole seconds; sub-second remainders are not modelled.
- TokenExpiry.KalturaTokenWarning: takes whole seconds. Local-time effects of `datetime.fromtimestamp` are not modelled.
- Concurrency between several running instances is not modelled. Each handler is one atomic step over the remote state.
