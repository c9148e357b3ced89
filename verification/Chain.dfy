/** Sequential jobs: each published job may ask for a successor, within the `max_jobs` budget. */
module Chains {
  import opened Wrappers
  import opened JobStates
  import opened Protocol
  import opened Worlds
  import opened Orchestration

  datatype RunResult = RunResult(jobs: seq<JobState>, maxJobsReached: bool)

  /** The successor a finished job asks for. */
  function NextPrompt(job: JobState): Option<string> {
    if job.status == JobStatus.Published && job.lastSupervisorDecision.Some?
       && job.lastSupervisorDecision.value.Accept?
    then job.lastSupervisorDecision.value.nextPrompt else None
  }

  predicate BudgetLeft(job: JobState) {
    job.identity.sequentialIndex + 1 < job.identity.run.maxJobs
  }

  /** One job directly after another in a chain. */
  ghost predicate Succeeds(before: JobState, after: JobState, run: RunConfiguration) {
    && NextPrompt(before) == Some(after.identity.task)
    && BudgetLeft(before)
    && after.identity.sequentialIndex == before.identity.sequentialIndex + 1
    && after.identity.run == run
    && after.identity.projectName == before.identity.projectName
    && after.identity.projectPath == before.identity.projectPath
  }

  ghost predicate IsChain(jobs: seq<JobState>, run: RunConfiguration) {
    jobs != [] && forall i :: 0 < i < |jobs| ==> Succeeds(jobs[i - 1], jobs[i], run)
  }

  lemma {:induction false} ChainPositions(jobs: seq<JobState>, run: RunConfiguration, i: nat)
    requires IsChain(jobs, run) && i < |jobs|
    ensures jobs[i].identity.sequentialIndex == jobs[0].identity.sequentialIndex + i
    ensures i > 0 ==> jobs[i].identity.run == run
  {
    if i > 0 {
      ChainPositions(jobs, run, i - 1);
      assert Succeeds(jobs[i - 1], jobs[i], run);
    }
  }

  /**
   A chain never outgrows the budget, also when its first job was resumed at its own position: counted from where
   the original chain began, it has at most `max_jobs` jobs, unless the resumed job alone already exceeds it.
   */
  lemma ChainWithinBudget(jobs: seq<JobState>, run: RunConfiguration)
    requires IsChain(jobs, run) && jobs[0].identity.run.maxJobs == run.maxJobs
    ensures |jobs| == 1 || jobs[0].identity.sequentialIndex + |jobs| <= run.maxJobs
  {
    if |jobs| > 1 {
      var last := |jobs| - 1;
      assert Succeeds(jobs[last - 1], jobs[last], run);
      ChainPositions(jobs, run, last);
      ChainPositions(jobs, run, last - 1);
    }
  }

  class SequentialRunner {
    const run: RunConfiguration
    const control: ControlReceiver

    constructor (run: RunConfiguration, control: ControlReceiver)
      ensures this.run == run && this.control == control
    {
      this.run := run;
      this.control := control;
    }

    /** A child gets its own exclusive claim before anything is saved for it, and gives it up once it is over. */
    method RunChild(parent: JobState, task: string, privateContext: string) returns (r: Outcome<JobState>)
      requires BudgetLeft(parent) && NextPrompt(parent) == Some(task) && run.Coherent()
      modifies control
      ensures r.Success? ==> Succeeds(parent, r.value, run)
    {
      var jobId: string := *;
      var identity := JobIdentity(jobId, parent.identity.projectName, parent.identity.projectPath, task, run,
                                  parent.identity.sequentialIndex + 1);
      var world := new World(identity);
      var held := world.Acquire();
      if !held {
        return Failure(Lock);
      }
      var orchestrator := new AutonomousOrchestrator(world, control);
      r := orchestrator.Run(privateContext);
      world.Release();
    }

    /**
     Continue a chain from its first job. On success the jobs form a chain from it, and the budget is reported as
     reached exactly when nobody asked to stop and the last job asks for a successor that the budget forbids.
     */
    method ContinueSequentially(first: JobState, privateContext: string) returns (r: Outcome<RunResult>)
      requires run.Coherent()
      modifies control
      ensures r.Success? ==>
        && IsChain(r.value.jobs, run) && r.value.jobs[0] == first
        && var last := r.value.jobs[|r.value.jobs| - 1];
        && (r.value.maxJobsReached <==> !control.stop && NextPrompt(last).Some? && !BudgetLeft(last))
        && (control.stop || NextPrompt(last).None? || !BudgetLeft(last))
    {
      var jobs := [];
      var job := first;
      while true
        invariant IsChain(jobs + [job], run) && (jobs + [job])[0] == first
        decreases jobs == [],
                  if job.identity.sequentialIndex < run.maxJobs then run.maxJobs - job.identity.sequentialIndex else 0
      {
        var nextPrompt := NextPrompt(job);
        jobs := jobs + [job];
        var stop := control.StopRequested();
        if stop {
          return Success(RunResult(jobs, false));
        }
        if nextPrompt.None? {
          return Success(RunResult(jobs, false));
        }
        if !BudgetLeft(job) {
          return Success(RunResult(jobs, true));
        }
        var parent := job;
        job :- RunChild(parent, nextPrompt.value, privateContext);
        assert (jobs + [job])[|jobs| - 1] == parent;
        assert |jobs| > 1 ==> Succeeds(jobs[|jobs| - 2], parent, run);
      }
    }

    /** `run_sequential`: the caller holds the first job's claim. */
    method RunSequential(world: World, privateContext: string) returns (r: Outcome<RunResult>)
      requires world.Valid() && world.m == INITIAL && world.o == NOTHING_YET
      requires world.identity.run == run && run.Coherent()
      modifies world, control
      ensures run.maxJobs == 0 ==> r == Failure(InvalidTransition(ZeroJobs)) && world.m == INITIAL
      ensures r.Success? ==> IsChain(r.value.jobs, run) && r.value.jobs[0].identity == world.identity
    {
      if run.maxJobs == 0 {
        return Failure(InvalidTransition(ZeroJobs));
      }
      var orchestrator := new AutonomousOrchestrator(world, control);
      var job :- orchestrator.Run(privateContext);
      r := ContinueSequentially(job, privateContext);
    }

    /** `resume_sequential`: the resumed job keeps the position it was saved with. */
    method ResumeSequential(world: World, job0: JobState, privateContext: string) returns (r: Outcome<RunResult>)
      requires world.Valid() && world.m.store == Some(job0) && world.m.work.Booting? && !world.m.halted
      requires world.o == Awakened(world.m) && run.Coherent()
      requires world.m.tidy ==> job0.pendingUserInstructions == []
      modifies world, control
      ensures r.Success? ==> IsChain(r.value.jobs, run) && r.value.jobs[0].identity == job0.identity
    {
      var orchestrator := new AutonomousOrchestrator(world, control);
      var job :- orchestrator.ResumeJob(job0, privateContext);
      r := ContinueSequentially(job, privateContext);
    }
  }
}
