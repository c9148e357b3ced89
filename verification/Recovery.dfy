/** Whole lives of a job: one start, then any number of deaths and resumptions. */
module Recovery {
  import opened Wrappers
  import opened JobStates
  import opened Protocol
  import opened Worlds
  import opened Orchestration
  import opened Persisted

  /** When a process dies, counted in its own actions, and how its successor is commanded. */
  datatype Death = Death(after: nat, commands: seq<ControlCommand>, privateContext: string)

  /**
   A process dies at some point of what it did, and another one resumes from the stored record alone, if there is
   one and the job's lock can be had.
   */
  method DieAndResume(world: World, death: Death)
    requires world.Consistent()
    modifies world
    ensures world.Consistent()
    ensures old(world.inherited) <= world.history
  {
    var n := |world.inherited| + death.after;
    if n > |world.history| {
      n := |world.history|;
    }
    ghost var before := world.inherited;
    world.Die(n);
    assert before <= world.history;
    var record := Stored(world.history);
    if record.None? {
      return;
    }
    var held := world.Boot();
    if !held {
      return;
    }
    assert before <= world.inherited;
    var control := new ControlReceiver(death.commands);
    var successor := new AutonomousOrchestrator(world, control);
    var outcome := successor.ResumeJob(record.value, death.privateContext);
    assert before <= world.inherited <= world.history;
  }

  /**
   However often and wherever its processes die, everything a job ever makes visible follows the protocol, and every
   record it ever leaves behind is sound.
   */
  method LiveThrough(world: World, privateContext: string, commands: seq<ControlCommand>, deaths: seq<Death>)
    requires world.Unclaimed() && world.identity.run.Coherent()
    modifies world
    ensures Lawful(world.history)
    ensures forall i :: 0 <= i < |world.history| && world.history[i].Saved? ==> Persistable(world.history[i].job)
  {
    var held := world.Acquire();
    if held {
      var control := new ControlReceiver(commands);
      var first := new AutonomousOrchestrator(world, control);
      var outcome := first.Run(privateContext);
      for i := 0 to |deaths|
        invariant world.Consistent()
      {
        DieAndResume(world, deaths[i]);
      }
    }
    forall i | 0 <= i < |world.history| && world.history[i].Saved?
      ensures Persistable(world.history[i].job)
    {
      EverySavedRecord(world.history, i);
    }
  }
}
