/**
 * The handlers as the source runs them: step by step, with each remote call
 * changing the remote state held by a `Fetcher`. Each handler is proved to
 * have exactly the effect and outcome of its function in `Reconcile`.
 */
module ReachFetcher {
  import opened Wrappers
  import opened FlavorPolicy
  import opened UrlRewrite
  import opened ModelPolicy
  import opened CaptionWait
  import opened Reconcile

  class Fetcher {
    /** The global `config`, as `getConfig` left it. */
    const config: Config<PartnerKey>
    /** Vendor task statuses, as `entryVendorTask.updateJob` writes them. */
    var tasks: map<TaskId, TaskStatus>
    /** The transcriber's jobs, by reference. */
    var jobs: map<TaskId, Job>
    /** Caption assets created with `captionAsset.add`; an asset's id is its position. */
    var captions: seq<Caption>
    /** Calls made to `add_task`. */
    var createCalls: nat

    function World(): World
      reads this
    {
      Reconcile.World(tasks, jobs, captions, createCalls)
    }

    constructor (config: Config<PartnerKey>, initial: World)
      ensures this.config == config && World() == initial
    {
      this.config := config;
      tasks := initial.tasks;
      jobs := initial.jobs;
      captions := initial.captions;
      createCalls := initial.createCalls;
    }

    /** `entryVendorTask.updateJob(taskId, vendorTask)` with a new status. */
    method UpdateJob(taskId: TaskId, status: TaskStatus)
      modifies this
      ensures World() == SetStatus(old(World()), taskId, status)
    {
      tasks := tasks[taskId := status];
    }

    /** `setKalturaError`: the task goes to ERROR with the message as its description. */
    method SetKalturaError(taskId: TaskId, message: string)
      modifies this
      ensures World() == SetStatus(old(World()), taskId, Error(message))
    {
      UpdateJob(taskId, Error(message));
    }

    /**
     * `get_tasks_by_ref_id`: None for a non-2xx answer, otherwise the `result`
     * object, empty (None inside) when no job has this reference.
     */
    method LookupJob(taskId: TaskId, answered: bool) returns (found: Option<Option<Job>>)
      ensures !answered <==> found.None?
      ensures found.Some? ==> (found.value.Some? <==> taskId in jobs)
      ensures found.Some? && found.value.Some? ==> found.value.value == jobs[taskId]
    {
      if !answered {
        return None;
      }
      found := if taskId in jobs then Some(Some(jobs[taskId])) else Some(None);
    }

    /** `add_task`: every call counts; only a 2xx answer creates the job. */
    method AddTask(taskId: TaskId, job: Job, answered: bool) returns (newTaskId: Option<TaskId>)
      modifies this
      ensures newTaskId.Some? <==> answered
      ensures World() == old(World()).(
        createCalls := old(createCalls) + 1,
        jobs := if answered then old(jobs)[taskId := job] else old(jobs))
    {
      createCalls := createCalls + 1;
      if answered {
        jobs := jobs[taskId := job];
        newTaskId := Some(taskId);
      } else {
        newTaskId := None;
      }
    }

    /** `captionAsset.add`: a new asset, without content, whose id is returned. */
    method AddCaptionAsset(caption: Caption) returns (captionId: CaptionId)
      modifies this
      ensures captionId == |old(captions)|
      ensures World() == old(World()).(captions := old(captions) + [caption])
    {
      captionId := |captions|;
      captions := captions + [caption];
    }

    /** `captionAsset.setContent`. */
    method SetContent(captionId: CaptionId, content: string)
      requires captionId < |captions|
      modifies this
      ensures World() == old(World()).(
        captions := old(captions)[captionId := old(captions)[captionId].(content := Some(content))])
    {
      captions := captions[captionId := captions[captionId].(content := Some(content))];
    }

    method HandlePending(t: VendorTask, a: Answers) returns (outcome: Outcome)
      modifies this
      ensures Step(World(), outcome) == PendingStep(config, old(World()), t, a)
    {
      var flavorId := SelectFlavor(a.flavors);
      if flavorId.None? || flavorId.value == "" {
        SetKalturaError(t.id, NoFlavorFound);
        return Done;
      }
      var url := RewriteHost(a.flavorUrl);
      var found := LookupJob(t.id, a.lookupOk);
      var model := GetModel(config, t.partnerId, a.sourceLanguage);
      if found.None? {
        return Crash(LookupFailed);
      }
      if found.value.None? {
        var newTaskId := AddTask(t.id, Job(model, url, JobProcessing, ""), a.addOk);
        if newTaskId.None? {
          SetKalturaError(t.id, AddFailed);
          return Done;
        }
      }
      UpdateJob(t.id, Processing);
      outcome := Done;
    }

    /** The part of `handleProcessing` from the job lookup to `captionAsset.add`, shared by both versions. */
    method TriageJob(t: VendorTask, a: Answers) returns (early: Option<Outcome>, job: Job)
      modifies this
      ensures early.None? <==> BeforeCaption(old(World()), t, a).None?
      ensures early.Some? ==> Step(World(), early.value) == BeforeCaption(old(World()), t, a).value
      ensures early.None? ==> World() == old(World()) && job == jobs[t.id]
    {
      job := Job("", "", JobOther(""), "");
      var found := LookupJob(t.id, a.lookupOk);
      if found.None? || found.value.None? {
        return Some(Done), job;
      }
      job := found.value.value;
      if job.status == JobError {
        UpdateJob(t.id, Error(TaskFailed));
        return Some(Done), job;
      }
      if job.status != JobCompleted {
        return Some(Done), job;
      }
      if a.addCaptionFault.Some? {
        return Some(Crash(Kaltura(a.addCaptionFault.value))), job;
      }
      early := None;
    }

    /** `handleProcessing` as written: after the asset is added, line 280 reads the unbound `url`. */
    method HandleProcessingAsWritten(t: VendorTask, a: Answers) returns (outcome: Outcome)
      modifies this
      ensures Step(World(), outcome) == ProcessingStepAsWritten(old(World()), t, a)
    {
      var early, job := TriageJob(t, a);
      if early.Some? {
        return early.value;
      }
      var captionId := AddCaptionAsset(NewCaption(t.entryId, a.sourceLanguage));
      outcome := Crash(UnboundUrl);
    }

    /** `handleProcessing` without the unbound read: the `try` block and its `except` clause. */
    method HandleProcessing(t: VendorTask, a: Answers) returns (outcome: Outcome)
      modifies this
      ensures Step(World(), outcome) == ProcessingStep(old(World()), t, a)
    {
      var early, job := TriageJob(t, a);
      if early.Some? {
        return early.value;
      }
      var captionId := AddCaptionAsset(NewCaption(t.entryId, a.sourceLanguage));
      var raised := a.setContentFault;
      if raised.None? {
        SetContent(captionId, job.resultSrt);
        var wait := AwaitCaption(a.reply);
        if wait.Failed? {
          raised := Some(wait.error);
        } else {
          UpdateJob(t.id, Ready(captionId));
        }
      }
      if raised.Some? {
        if raised.value == EntryIdNotFound {
          UpdateJob(t.id, Error(EntryDeleted));
        } else {
          return Crash(Kaltura(raised.value));
        }
      }
      outcome := Done;
    }
  }
}
