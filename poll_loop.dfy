/**
 * One iteration of the `run` loop: unless the stop event is set, list the
 * PENDING and PROCESSING vendor tasks and handle each in list order. PENDING
 * tasks are handled only when not draining; PROCESSING tasks are always
 * handled and counted; a task with any other status only causes a warning. An
 * exception from a handler ends the loop (and the process). After the tasks,
 * the loop parks while draining if it counted no PROCESSING task.
 */
module PollLoop {
  import opened Wrappers
  import opened ModelPolicy
  import opened Reconcile
  import opened ReachFetcher
  import opened Signals

  /** The state after some of the listed tasks, and how many PROCESSING tasks were handled. */
  datatype Progress = Progress(world: World, outcome: Outcome, numProcessing: nat)

  /** How one loop iteration ends. */
  datatype CycleEnd =
    | Stopped                                  // `while not event.is_set()` is false
    | Crashed(fault: Fault)                    // a handler raised
    | Cycled(numProcessing: nat, parks: bool)  // all tasks handled; parks while draining

  /**
   * Which `handleProcessing` a cycle runs: the one at reach_fetcher.py:223-318 as
   * written (it raises NameError on every completed job), or the corrected one.
   */
  datatype Handler = AsWritten | Corrected

  /** The `match task.status.value` of `run`, on the status the list call returned. */
  function HandleTask(conf: Config<PartnerKey>, w: World, drain: bool, h: Handler, t: VendorTask, a: Answers): (r: Step)
    ensures forall id :: id in w.jobs ==> id in r.world.jobs && r.world.jobs[id] == w.jobs[id]
    ensures drain ==> r.world.jobs == w.jobs && r.world.createCalls == w.createCalls
    ensures t.status != Pending ==> r.world.createCalls == w.createCalls
  {
    match t.status
    case Pending => if drain then Step(w, Done) else PendingStep(conf, w, t, a)
    case Processing => if h == AsWritten then ProcessingStepAsWritten(w, t, a) else ProcessingStep(w, t, a)
    case _ => Step(w, Done)
  }

  /** The listed tasks handled in order; `answers(i)` is what the remotes answer for the i-th one. */
  function RunTasks(conf: Config<PartnerKey>, w: World, drain: bool, h: Handler, listed: seq<VendorTask>,
                    answers: nat -> Answers): (p: Progress)
    ensures p.numProcessing <= CountProcessing(listed)
    ensures w.createCalls <= p.world.createCalls
    decreases |listed|
  {
    if listed == [] then Progress(w, Done, 0)
    else
      var n := |listed| - 1;
      var before := RunTasks(conf, w, drain, h, listed[..n], answers);
      if before.outcome.Crash? then before
      else
        var s := HandleTask(conf, before.world, drain, h, listed[n], answers(n));
        Progress(s.world, s.outcome, before.numProcessing + if listed[n].status == Processing then 1 else 0)
  }

  function CountProcessing(listed: seq<VendorTask>): nat {
    if listed == [] then 0
    else CountProcessing(listed[..|listed| - 1]) + if listed[|listed| - 1].status == Processing then 1 else 0
  }

  /** A cycle that runs to its end counts exactly the listed PROCESSING tasks. */
  lemma {:induction false} RunCountsProcessing(conf: Config<PartnerKey>, w: World, drain: bool, h: Handler,
                                               listed: seq<VendorTask>, answers: nat -> Answers)
    ensures var p := RunTasks(conf, w, drain, h, listed, answers);
      p.outcome == Done ==> p.numProcessing == CountProcessing(listed)
    decreases |listed|
  {
    if listed != [] {
      RunCountsProcessing(conf, w, drain, h, listed[..|listed| - 1], answers);
    }
  }

  /**
   * While draining nothing is submitted: the job store and the number of
   * `add_task` calls stay as they were, whatever the listed tasks.
   */
  lemma {:induction false} DrainSubmitsNothing(conf: Config<PartnerKey>, w: World, h: Handler,
                                               listed: seq<VendorTask>, answers: nat -> Answers)
    ensures RunTasks(conf, w, true, h, listed, answers).world.jobs == w.jobs
    ensures RunTasks(conf, w, true, h, listed, answers).world.createCalls == w.createCalls
    decreases |listed|
  {
    if listed != [] {
      var n := |listed| - 1;
      DrainSubmitsNothing(conf, w, h, listed[..n], answers);
    }
  }

  /**
   * A job, once created, is never replaced or removed by a cycle, so each task
   * is submitted at most once over any number of cycles.
   */
  lemma {:induction false} RunKeepsJobs(conf: Config<PartnerKey>, w: World, drain: bool, h: Handler,
                                        listed: seq<VendorTask>, answers: nat -> Answers)
    ensures var p := RunTasks(conf, w, drain, h, listed, answers);
      forall id :: id in w.jobs ==> id in p.world.jobs && p.world.jobs[id] == w.jobs[id]
    decreases |listed|
  {
    if listed != [] {
      var n := |listed| - 1;
      RunKeepsJobs(conf, w, drain, h, listed[..n], answers);
    }
  }

  /** A task listed with any status but PENDING or PROCESSING changes nothing. */
  lemma OtherStatusIgnored(conf: Config<PartnerKey>, w: World, drain: bool, h: Handler, t: VendorTask, a: Answers)
    requires t.status != Pending && t.status != Processing
    ensures HandleTask(conf, w, drain, h, t, a) == Step(w, Done)
  {
  }

  /**
   * A completed task is handled once: after the corrected handler set it READY
   * with its caption, listing it again with that status creates no further caption.
   */
  lemma ReadyHandledOnce(conf: Config<PartnerKey>, w: World, drain: bool, t: VendorTask, a: Answers, a2: Answers)
    requires t.status == Processing
    requires a.lookupOk && t.id in w.jobs && w.jobs[t.id].status == JobCompleted
    requires a.addCaptionFault.None? && a.setContentFault.None? && FetchesAnswer(a)
    ensures var w1 := HandleTask(conf, w, drain, Corrected, t, a).world;
      && |w1.captions| == |w.captions| + 1
      && w1.tasks[t.id] == Ready(|w.captions|)
      && HandleTask(conf, w1, drain, Corrected, t.(status := w1.tasks[t.id]), a2) == Step(w1, Done)
  {
  }

  /** One iteration of the `while not event.is_set()` loop of `run`. */
  method Cycle(f: Fetcher, ctl: Controller, listed: seq<VendorTask>, answers: nat -> Answers)
    returns (end: CycleEnd)
    modifies f
    ensures ctl.stopping ==> end == Stopped && f.World() == old(f.World())
    ensures !ctl.stopping ==>
      var p := RunTasks(f.config, old(f.World()), ctl.drain, Corrected, listed, answers);
      && f.World() == p.world
      && (p.outcome.Crash? ==> end == Crashed(p.outcome.fault))
      && (p.outcome == Done ==> end == Cycled(CountProcessing(listed), ctl.drain && CountProcessing(listed) == 0))
  {
    if ctl.stopping {
      return Stopped;
    }
    ghost var start := f.World();
    var drain := ctl.drain;
    var numProcessing := 0;
    var k := 0;
    while k < |listed|
      invariant k <= |listed|
      invariant RunTasks(f.config, start, drain, Corrected, listed[..k], answers) == Progress(f.World(), Done, numProcessing)
    {
      assert listed[..k + 1][..k] == listed[..k];
      var task := listed[k];
      var outcome := HandleListed(f, drain, task, answers(k));
      if task.status == Processing {
        numProcessing := numProcessing + 1;
      }
      if outcome.Crash? {
        RunStopsAtCrash(f.config, start, drain, Corrected, listed, answers, k + 1);
        return Crashed(outcome.fault);
      }
      k := k + 1;
    }
    assert listed[..k] == listed;
    RunCountsProcessing(f.config, start, drain, Corrected, listed, answers);
    end := Cycled(numProcessing, numProcessing == 0 && drain);
  }

  /** The `match task.status.value` of `run` for one listed task. */
  method HandleListed(f: Fetcher, drain: bool, task: VendorTask, a: Answers) returns (outcome: Outcome)
    modifies f
    ensures Step(f.World(), outcome) == HandleTask(f.config, old(f.World()), drain, Corrected, task, a)
  {
    outcome := Done;
    match task.status {
      case Pending =>
        if !drain {
          outcome := f.HandlePending(task, a);
        }
      case Processing =>
        outcome := f.HandleProcessing(task, a);
      case _ =>
    }
  }

  /** After a handler raised, the rest of the list is never reached. */
  lemma {:induction false} RunStopsAtCrash(conf: Config<PartnerKey>, w: World, drain: bool, h: Handler,
                                           listed: seq<VendorTask>, answers: nat -> Answers, k: nat)
    requires k <= |listed|
    requires RunTasks(conf, w, drain, h, listed[..k], answers).outcome.Crash?
    ensures RunTasks(conf, w, drain, h, listed, answers) == RunTasks(conf, w, drain, h, listed[..k], answers)
    decreases |listed| - k
  {
    if k < |listed| {
      var n := |listed| - 1;
      assert listed[..n][..k] == listed[..k];
      RunStopsAtCrash(conf, w, drain, h, listed[..n], answers, k);
    } else {
      assert listed[..k] == listed;
    }
  }

  /**
   * As written, a cycle ends at the first listed PROCESSING task whose job is
   * completed: that task's caption asset is added, the NameError of the unbound
   * `url` escapes, and no later task of the list is handled.
   */
  lemma AsWrittenCycleCrashes(conf: Config<PartnerKey>, w: World, drain: bool,
                              listed: seq<VendorTask>, answers: nat -> Answers, k: nat)
    requires k < |listed| && listed[k].status == Processing
    requires var before := RunTasks(conf, w, drain, AsWritten, listed[..k], answers);
      && before.outcome == Done
      && answers(k).lookupOk && answers(k).addCaptionFault.None?
      && listed[k].id in before.world.jobs && before.world.jobs[listed[k].id].status == JobCompleted
    ensures var before := RunTasks(conf, w, drain, AsWritten, listed[..k], answers);
      RunTasks(conf, w, drain, AsWritten, listed, answers) ==
        Progress(AddCaption(before.world, listed[k], answers(k)), Crash(UnboundUrl), before.numProcessing + 1)
  {
    var before := RunTasks(conf, w, drain, AsWritten, listed[..k], answers);
    assert listed[..k + 1][..k] == listed[..k];
    AsWrittenCompletedRaises(before.world, listed[k], answers(k));
    RunStopsAtCrash(conf, w, drain, AsWritten, listed, answers, k + 1);
  }
}
