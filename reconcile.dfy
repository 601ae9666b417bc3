/**
 * The task state machine of `handlePending` and `handleProcessing`, as
 * functions from the state of the two remote systems, one vendor task (as the
 * list call returned it) and the remote answers this model cannot see, to the
 * new remote state and how the handler ended.
 *
 * The remote state is what the handlers read and write: the status of each
 * vendor task (written with `entryVendorTask.updateJob`), the transcriber's jobs
 * keyed by the reference `str(task.id)` (here the task id itself), the caption
 * assets created so far (a caption id is its position) and the number of
 * `add_task` calls made. A handler ends normally or with an exception that
 * escapes it; nothing in `run` catches it, so it ends the process.
 */
module Reconcile {
  import opened Wrappers
  import opened FlavorPolicy
  import opened UrlRewrite
  import opened ModelPolicy
  import opened CaptionWait

  type TaskId = int
  type CaptionId = nat

  /** KalturaEntryVendorTaskStatus as this system uses it; any other status is `Other`. */
  datatype TaskStatus =
    | Pending
    | Processing
    | Ready(outputObjectId: CaptionId)
    | Error(errDescription: string)
    | Other(code: int)

  /** The fields of a listed vendor task that the handlers use. */
  datatype VendorTask = VendorTask(id: TaskId, entryId: string, partnerId: PartnerKey, status: TaskStatus)

  /** The transcriber's `status` strings: 'processing', 'completed', 'error', or anything else. */
  datatype JobStatus = JobProcessing | JobCompleted | JobError | JobOther(name: string)

  /** A transcriber job: what `add_task` sent, and the status and SRT result it reports. */
  datatype Job = Job(model: string, fileUrl: string, status: JobStatus, resultSrt: string)

  datatype Caption = Caption(
    entryId: string, language: string, displayLabel: string, tags: string, accuracy: int,
    content: Option<string>)

  datatype World = World(
    tasks: map<TaskId, TaskStatus>,
    jobs: map<TaskId, Job>,
    captions: seq<Caption>,
    createCalls: nat)

  /**
   * What the remote systems answer while one task is handled: the catalog
   * item's source language, the entry's READY flavors, the URL of the chosen
   * flavor, whether the job lookup and `add_task` got a 2xx answer, the code of
   * a KalturaException raised by `captionAsset.add` or `setContent`, and the
   * answers to the successive `captionAsset.get` calls.
   */
  datatype Answers = Answers(
    sourceLanguage: string,
    flavors: seq<Flavor>,
    flavorUrl: string,
    lookupOk: bool,
    addOk: bool,
    addCaptionFault: Option<string>,
    setContentFault: Option<string>,
    reply: nat -> CaptionReply)

  /**
   * An exception leaving a handler: the TypeError of `len(None["result"])`, a
   * KalturaException with its code, or the NameError of the unbound `url`.
   */
  datatype Fault = LookupFailed | Kaltura(code: string) | UnboundUrl

  datatype Outcome = Done | Crash(fault: Fault)

  datatype Step = Step(world: World, outcome: Outcome)

  const NoFlavorFound: string := "No flavor found"
  const AddFailed: string := "Error adding new task"
  const TaskFailed: string := "Task failed"
  const EntryDeleted: string := "Entry deleted"
  const EntryIdNotFound: string := "ENTRY_ID_NOT_FOUND"
  const CaptionTags: string := "ndn-whisper"
  const CaptionAccuracy: int := 90
  const LabelSuffix: string := " (Whisper)"

  function SetStatus(w: World, id: TaskId, s: TaskStatus): World {
    w.(tasks := w.tasks[id := s])
  }

  /** The caption asset `handleProcessing` adds, before its content is set. */
  function NewCaption(entryId: string, lang: string): Caption {
    Caption(entryId, lang, lang + LabelSuffix, CaptionTags, CaptionAccuracy, None)
  }

  /** The flavor check passes: the scan kept a flavor whose id is not empty (`if not flavorId`). */
  predicate HasFlavor(a: Answers) {
    ChosenId(a.flavors).Some? && ChosenId(a.flavors).value != ""
  }

  /** The job `add_task` submits for t. */
  function NewJob(conf: Config<PartnerKey>, t: VendorTask, a: Answers): Job {
    Job(GetModel(conf, t.partnerId, a.sourceLanguage), RewriteHost(a.flavorUrl), JobProcessing, "")
  }

  /** `handlePending`. An existing job moves the task to PROCESSING whatever its status. */
  function PendingStep(conf: Config<PartnerKey>, w: World, t: VendorTask, a: Answers): (r: Step)
    ensures r.world.captions == w.captions
    ensures w.createCalls <= r.world.createCalls <= w.createCalls + 1
    ensures r.outcome.Crash? ==> r == Step(w, Crash(LookupFailed))
  {
    if !HasFlavor(a) then Step(SetStatus(w, t.id, Error(NoFlavorFound)), Done)
    else if !a.lookupOk then Step(w, Crash(LookupFailed))
    else if t.id in w.jobs then Step(SetStatus(w, t.id, Processing), Done)
    else
      var called := w.(createCalls := w.createCalls + 1);
      if !a.addOk then Step(SetStatus(called, t.id, Error(AddFailed)), Done)
      else Step(SetStatus(called.(jobs := w.jobs[t.id := NewJob(conf, t, a)]), t.id, Processing), Done)
  }

  /**
   * `handleProcessing` up to the point where the caption asset exists: Some
   * step when it returns or raises before that, None when the job completed and
   * `captionAsset.add` succeeded.
   */
  function BeforeCaption(w: World, t: VendorTask, a: Answers): (early: Option<Step>)
    ensures early.None? ==>
      a.lookupOk && t.id in w.jobs && w.jobs[t.id].status == JobCompleted && a.addCaptionFault.None?
  {
    if !a.lookupOk || t.id !in w.jobs then Some(Step(w, Done))
    else if w.jobs[t.id].status == JobError then Some(Step(SetStatus(w, t.id, Error(TaskFailed)), Done))
    else if w.jobs[t.id].status != JobCompleted then Some(Step(w, Done))
    else if a.addCaptionFault.Some? then Some(Step(w, Crash(Kaltura(a.addCaptionFault.value))))
    else None
  }

  function AddCaption(w: World, t: VendorTask, a: Answers): World {
    w.(captions := w.captions + [NewCaption(t.entryId, a.sourceLanguage)])
  }

  /** The `except KalturaException` clause. */
  function Caught(w: World, id: TaskId, code: string): Step {
    if code == EntryIdNotFound then Step(SetStatus(w, id, Error(EntryDeleted)), Done)
    else Step(w, Crash(Kaltura(code)))
  }

  /** The `try` block: set the content, wait for the caption, mark the task READY. */
  function Deliver(w: World, id: TaskId, captionId: CaptionId, srt: string, a: Answers): Step
    requires captionId < |w.captions|
  {
    if a.setContentFault.Some? then Caught(w, id, a.setContentFault.value)
    else
      var filled := w.(captions := w.captions[captionId := w.captions[captionId].(content := Some(srt))]);
      match Await(a.reply)
      case Failed(code) => Caught(filled, id, code)
      case Settled(_, _, _) => Step(SetStatus(filled, id, Ready(captionId)), Done)
  }

  /** `handleProcessing` as written: the `url` read at line 280 is unbound and raises. */
  function ProcessingStepAsWritten(w: World, t: VendorTask, a: Answers): (r: Step)
    ensures r.world.jobs == w.jobs && r.world.createCalls == w.createCalls
    ensures r.world.tasks == w.tasks || r.world.tasks == w.tasks[t.id := Error(TaskFailed)]
    ensures r.world.captions == w.captions || r.world.captions == w.captions + [NewCaption(t.entryId, a.sourceLanguage)]
  {
    var early := BeforeCaption(w, t, a);
    if early.Some? then early.value
    else Step(AddCaption(w, t, a), Crash(UnboundUrl))
  }

  /** `handleProcessing` without the dead `build_task_result_url(url)` line. */
  function ProcessingStep(w: World, t: VendorTask, a: Answers): (r: Step)
    ensures r.world.jobs == w.jobs && r.world.createCalls == w.createCalls
    ensures r.world.tasks.Keys <= w.tasks.Keys + {t.id}
    ensures forall id :: id in w.tasks && id != t.id ==> id in r.world.tasks && r.world.tasks[id] == w.tasks[id]
    ensures r.outcome.Crash? ==> r.world.tasks == w.tasks
  {
    var early := BeforeCaption(w, t, a);
    if early.Some? then early.value
    else Deliver(AddCaption(w, t, a), t.id, |w.captions|, w.jobs[t.id].resultSrt, a)
  }

  // ---------------------------------------------------------------------------
  // handlePending

  /** Nothing but the task's own status, the job store and the call counter changes. */
  lemma PendingFrame(conf: Config<PartnerKey>, w: World, t: VendorTask, a: Answers)
    ensures var s := PendingStep(conf, w, t, a);
      && s.world.captions == w.captions
      && s.world.tasks.Keys <= w.tasks.Keys + {t.id}
      && (forall id :: id in w.tasks && id != t.id ==> s.world.tasks[id] == w.tasks[id])
      && (forall id :: id in w.jobs ==> id in s.world.jobs && s.world.jobs[id] == w.jobs[id])
      && s.world.jobs.Keys <= w.jobs.Keys + {t.id}
  {
  }

  /** Without an eligible flavor the task fails with 'No flavor found' and nothing is submitted. */
  lemma PendingWithoutFlavor(conf: Config<PartnerKey>, w: World, t: VendorTask, a: Answers)
    requires NoneEligible(a.flavors)
    ensures PendingStep(conf, w, t, a) == Step(SetStatus(w, t.id, Error(NoFlavorFound)), Done)
  {
    ScanIsSmallestEarliest(a.flavors);
  }

  /** A failed lookup (non-2xx) is not checked: the handler raises before any change. */
  lemma PendingLookupFailureRaises(conf: Config<PartnerKey>, w: World, t: VendorTask, a: Answers)
    requires HasFlavor(a) && !a.lookupOk
    ensures PendingStep(conf, w, t, a) == Step(w, Crash(LookupFailed))
  {
  }

  /**
   * Once the lookup answered, `add_task` is called exactly when no job exists
   * for the task, and an existing job of any status moves the task to PROCESSING
   * without a new submission.
   */
  lemma PendingSubmitsOnlyWithoutJob(conf: Config<PartnerKey>, w: World, t: VendorTask, a: Answers)
    requires HasFlavor(a) && a.lookupOk
    ensures var s := PendingStep(conf, w, t, a);
      && s.outcome == Done
      && (s.world.createCalls == w.createCalls + 1 <==> t.id !in w.jobs)
      && (s.world.createCalls == w.createCalls <==> t.id in w.jobs)
      && (t.id in w.jobs ==> s.world == SetStatus(w, t.id, Processing))
  {
  }

  /**
   * A successful submission records one job, sent with the model the policy
   * chooses and a URL no longer on the cache host, and the task becomes
   * PROCESSING; a failed one sets 'Error adding new task' and never PROCESSING.
   */
  lemma PendingSubmission(conf: Config<PartnerKey>, w: World, t: VendorTask, a: Answers)
    requires HasFlavor(a) && a.lookupOk && t.id !in w.jobs
    ensures var s := PendingStep(conf, w, t, a);
      && s.outcome == Done
      && s.world.createCalls == w.createCalls + 1
      && (a.addOk ==>
            && s.world.tasks[t.id] == Processing
            && s.world.jobs == w.jobs[t.id := NewJob(conf, t, a)]
            && !HasCachePrefix(s.world.jobs[t.id].fileUrl))
      && (!a.addOk ==>
            && s.world.tasks[t.id] == Error(AddFailed)
            && s.world.jobs == w.jobs)
  {
    NoCachePrefixAfterRewrite(a.flavorUrl);
  }

  /**
   * When the handler returns, the task is PROCESSING with a job under its
   * reference, or ERROR with one of the two submission messages.
   */
  lemma PendingEndsSubmittedOrFailed(conf: Config<PartnerKey>, w: World, t: VendorTask, a: Answers)
    ensures var s := PendingStep(conf, w, t, a);
      s.outcome == Done ==>
        && t.id in s.world.tasks
        && (s.world.tasks[t.id] == Processing ==> t.id in s.world.jobs)
        && (s.world.tasks[t.id] == Processing ||
            s.world.tasks[t.id] == Error(NoFlavorFound) ||
            s.world.tasks[t.id] == Error(AddFailed))
  {
  }

  /**
   * Idempotent submission: handling the task again after it was moved to
   * PROCESSING (a restart, or an overlapping run that still saw it pending)
   * submits nothing and keeps the job.
   */
  lemma PendingIdempotent(conf: Config<PartnerKey>, w: World, t: VendorTask, a1: Answers, a2: Answers)
    requires var s := PendingStep(conf, w, t, a1);
      s.outcome == Done && t.id in s.world.tasks && s.world.tasks[t.id] == Processing
    ensures var w1 := PendingStep(conf, w, t, a1).world;
      var w2 := PendingStep(conf, w1, t, a2).world;
      w2.createCalls == w1.createCalls && w2.jobs == w1.jobs
  {
  }

  // ---------------------------------------------------------------------------
  // handleProcessing

  /** The processing handler never submits or changes a job. */
  lemma ProcessingKeepsJobs(w: World, t: VendorTask, a: Answers)
    ensures ProcessingStep(w, t, a).world.jobs == w.jobs
    ensures ProcessingStep(w, t, a).world.createCalls == w.createCalls
  {
  }

  /** A failed lookup or an empty result leaves everything as it was. */
  lemma ProcessingWithoutJob(w: World, t: VendorTask, a: Answers)
    requires !a.lookupOk || t.id !in w.jobs
    ensures ProcessingStep(w, t, a) == Step(w, Done)
  {
  }

  /** A failed job fails the task with 'Task failed' and creates no caption asset. */
  lemma ProcessingJobFailed(w: World, t: VendorTask, a: Answers)
    requires a.lookupOk && t.id in w.jobs && w.jobs[t.id].status == JobError
    ensures ProcessingStep(w, t, a) == Step(SetStatus(w, t.id, Error(TaskFailed)), Done)
    ensures ProcessingStep(w, t, a).world.captions == w.captions
  {
  }

  /** Any status but 'error' and 'completed' leaves the task for a later cycle. */
  lemma ProcessingJobRunning(w: World, t: VendorTask, a: Answers)
    requires a.lookupOk && t.id in w.jobs
    requires w.jobs[t.id].status != JobError && w.jobs[t.id].status != JobCompleted
    ensures ProcessingStep(w, t, a) == Step(w, Done)
  {
  }

  /** `captionAsset.add` is outside the `try`: its exception escapes whatever its code. */
  lemma ProcessingAddCaptionRaises(w: World, t: VendorTask, a: Answers)
    requires a.lookupOk && t.id in w.jobs && w.jobs[t.id].status == JobCompleted
    requires a.addCaptionFault.Some?
    ensures ProcessingStep(w, t, a) == Step(w, Crash(Kaltura(a.addCaptionFault.value)))
  {
  }

  /** No fetch of the new caption raises. */
  ghost predicate FetchesAnswer(a: Answers) {
    forall i: nat :: i <= MaxRetries ==> a.reply(i).Status?
  }

  /**
   * A completed job gives exactly one new caption asset holding the job's SRT
   * result, and the task becomes READY with that asset's id, whether or not the
   * asset reached READY within the retries.
   */
  lemma ProcessingCompleted(w: World, t: VendorTask, a: Answers)
    requires a.lookupOk && t.id in w.jobs && w.jobs[t.id].status == JobCompleted
    requires a.addCaptionFault.None? && a.setContentFault.None? && FetchesAnswer(a)
    ensures var s := ProcessingStep(w, t, a);
      && s.outcome == Done
      && s.world.captions ==
           w.captions + [NewCaption(t.entryId, a.sourceLanguage).(content := Some(w.jobs[t.id].resultSrt))]
      && s.world.tasks == w.tasks[t.id := Ready(|w.captions|)]
      && s.world.jobs == w.jobs && s.world.createCalls == w.createCalls
  {
  }

  /** The exception raised inside the `try`, if any. */
  function TryFault(a: Answers): Option<string> {
    if a.setContentFault.Some? then a.setContentFault
    else match Await(a.reply)
      case Failed(code) => Some(code)
      case Settled(_, _, _) => None
  }

  /**
   * A KalturaException inside the `try`: ENTRY_ID_NOT_FOUND fails the task with
   * 'Entry deleted', any other code escapes with the task unchanged; the caption
   * asset was created in both cases.
   */
  lemma ProcessingTryRaises(w: World, t: VendorTask, a: Answers)
    requires a.lookupOk && t.id in w.jobs && w.jobs[t.id].status == JobCompleted
    requires a.addCaptionFault.None? && TryFault(a).Some?
    ensures var s := ProcessingStep(w, t, a);
      && |s.world.captions| == |w.captions| + 1
      && (TryFault(a).value == EntryIdNotFound ==>
            s.outcome == Done && s.world.tasks == w.tasks[t.id := Error(EntryDeleted)])
      && (TryFault(a).value != EntryIdNotFound ==>
            s.outcome == Crash(Kaltura(TryFault(a).value)) && s.world.tasks == w.tasks)
  {
  }

  /** At most one caption asset is created per call, and earlier ones keep their entry and language. */
  lemma ProcessingAddsAtMostOneCaption(w: World, t: VendorTask, a: Answers)
    ensures var s := ProcessingStep(w, t, a);
      && |w.captions| <= |s.world.captions| <= |w.captions| + 1
      && forall i :: 0 <= i < |w.captions| ==> s.world.captions[i] == w.captions[i]
  {
  }

  // ---------------------------------------------------------------------------
  // The unbound `url` in handleProcessing, as written

  /** As written, a completed job always ends in a NameError after the caption asset was added. */
  lemma AsWrittenCompletedRaises(w: World, t: VendorTask, a: Answers)
    requires a.lookupOk && t.id in w.jobs && w.jobs[t.id].status == JobCompleted
    requires a.addCaptionFault.None?
    ensures ProcessingStepAsWritten(w, t, a) == Step(AddCaption(w, t, a), Crash(UnboundUrl))
    ensures ProcessingStepAsWritten(w, t, a).world.tasks == w.tasks
  {
  }

  /** The world after the process is restarted and the task handled k times, as written. */
  function RepollAsWritten(w: World, t: VendorTask, a: Answers, k: nat): World
    decreases k
  {
    if k == 0 then w else RepollAsWritten(ProcessingStepAsWritten(w, t, a).world, t, a, k - 1)
  }

  /**
   * As written, every re-poll of a completed task adds another empty caption
   * asset and the task never leaves PROCESSING.
   */
  lemma {:induction false} AsWrittenDuplicatesCaptions(w: World, t: VendorTask, a: Answers, k: nat)
    requires a.lookupOk && t.id in w.jobs && w.jobs[t.id].status == JobCompleted
    requires a.addCaptionFault.None?
    ensures RepollAsWritten(w, t, a, k).captions == w.captions + seq(k, _ => NewCaption(t.entryId, a.sourceLanguage))
    ensures RepollAsWritten(w, t, a, k).tasks == w.tasks
    ensures RepollAsWritten(w, t, a, k).jobs == w.jobs
    decreases k
  {
    if k > 0 {
      AsWrittenCompletedRaises(w, t, a);
      AsWrittenDuplicatesCaptions(ProcessingStepAsWritten(w, t, a).world, t, a, k - 1);
      var c := NewCaption(t.entryId, a.sourceLanguage);
      assert [c] + seq(k - 1, _ => c) == seq(k, _ => c);
    }
  }

  /** The corrected handler leaves a completed task READY or ERROR after one poll, unless an exception escapes. */
  lemma CompletedLeavesProcessing(w: World, t: VendorTask, a: Answers)
    requires a.lookupOk && t.id in w.jobs && w.jobs[t.id].status == JobCompleted
    requires a.addCaptionFault.None?
    ensures var s := ProcessingStep(w, t, a);
      s.outcome == Done ==> s.world.tasks[t.id].Ready? || s.world.tasks[t.id] == Error(EntryDeleted)
  {
  }
}
