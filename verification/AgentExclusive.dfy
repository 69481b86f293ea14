/**
 Under the controller's protocol an agent process has at most one engine that is started
 and unfinished.

 `doomed` holds the runs that can never start. The protocol's side, proved where agents and
 controller are composed, is that a Start is never for a doomed run and that an Assignment
 handled after a Start or Halt of the same run is for a doomed one.
 */
module AgentExclusive {
  import opened Basics
  import opened AgentSlot
  import AgentSlotProof

  ghost predicate IsTask(p: Proc, t: nat) {
    t in p.preps || t in p.engines
  }

  ghost function TaskRun(p: Proc, t: nat): RunId
    requires IsTask(p, t)
  {
    if t in p.preps then p.preps[t].run else p.engines[t].run
  }

  predicate Started(phase: Phase) {
    phase.Sent? || phase.Running?
  }

  /** Two tasks share a run only if that run is doomed. */
  ghost predicate OneTaskPerRun(p: Proc, doomed: set<RunId>) {
    forall t, u :: IsTask(p, t) && IsTask(p, u) && t != u && TaskRun(p, t) == TaskRun(p, u) ==> TaskRun(p, t) in doomed
  }

  ghost predicate PrepsInv(p: Proc, doomed: set<RunId>) {
    && (forall t :: t in p.preps ==>
      if p.preps[t].cancelled then p.preps[t].run in p.over
      else p.preps[t].run in doomed || (p.slot.Preparing? && p.slot.task == t))
    && (p.slot.Preparing? && p.slot.latched.Some? ==> p.slot.run !in doomed)
  }

  ghost predicate EnginesInv(p: Proc, doomed: set<RunId>) {
    forall t :: t in p.engines ==>
      && (!p.engines[t].phase.Waiting? ==> p.engines[t].run in p.over)
      && (Started(p.engines[t].phase) ==> p.engines[t].run !in doomed && p.slot == Armed(p.engines[t].run, t))
  }

  ghost predicate ExclusiveInv(p: Proc, doomed: set<RunId>) {
    && ProcInv(p)
    && OneTaskPerRun(p, doomed) && PrepsInv(p, doomed) && EnginesInv(p, doomed)
    && (p.slot.Preparing? && p.slot.latched.Some? ==> p.slot.run in p.over)
  }

  /** At most one engine is started and unfinished. */
  lemma AtMostOneStarted(p: Proc, doomed: set<RunId>, t: nat, u: nat)
    requires ExclusiveInv(p, doomed)
    requires t in p.engines && Started(p.engines[t].phase)
    requires u in p.engines && Started(p.engines[u].phase)
    ensures t == u
  {
  }

  lemma IdleIsExclusive(doomed: set<RunId>)
    ensures ExclusiveInv(IDLE, doomed)
  {
  }

  /** More runs may become doomed, as long as none of them has started here. */
  lemma MoreDoomed(p: Proc, doomed: set<RunId>, doomed': set<RunId>)
    requires ExclusiveInv(p, doomed) && doomed <= doomed'
    requires forall t :: t in p.engines && Started(p.engines[t].phase) ==> p.engines[t].run !in doomed'
    requires p.slot.Preparing? && p.slot.latched.Some? ==> p.slot.run !in doomed'
    ensures ExclusiveInv(p, doomed')
  {
  }

  lemma AssignmentKeeps(p: Proc, doomed: set<RunId>, run: RunId, index: nat, count: nat)
    requires ExclusiveInv(p, doomed) && (run in p.over ==> run in doomed)
    ensures ExclusiveInv(OnAssignment(p, run, index, count), doomed)
  {
    AgentSlotProof.AssignmentKeeps(p, run, index, count);
    var p' := OnAssignment(p, run, index, count);
    forall t, u | IsTask(p', t) && IsTask(p', u) && t != u && TaskRun(p', t) == TaskRun(p', u)
      ensures TaskRun(p', t) in doomed
    {
      assert t != p.nextTask ==> IsTask(p, t) && TaskRun(p, t) == TaskRun(p', t);
      assert u != p.nextTask ==> IsTask(p, u) && TaskRun(p, u) == TaskRun(p', u);
    }
  }

  lemma StartKeeps(p: Proc, doomed: set<RunId>, run: RunId, at: int)
    requires ExclusiveInv(p, doomed) && run !in doomed
    ensures ExclusiveInv(OnStart(p, run, at), doomed)
  {
    AgentSlotProof.StartKeeps(p, run, at);
    SameTasks(p, OnStart(p, run, at), doomed);
  }

  lemma HaltKeeps(p: Proc, doomed: set<RunId>, run: RunId)
    requires ExclusiveInv(p, doomed)
    ensures ExclusiveInv(OnHalt(p, run), doomed)
  {
    AgentSlotProof.HaltKeeps(p, run);
    SameTasks(p, OnHalt(p, run), doomed);
  }

  /** Steps that create no task keep one task per run. */
  lemma SameTasks(p: Proc, p': Proc, doomed: set<RunId>)
    requires OneTaskPerRun(p, doomed)
    requires forall t :: IsTask(p', t) ==> IsTask(p, t) && TaskRun(p', t) == TaskRun(p, t)
    ensures OneTaskPerRun(p', doomed)
  {
  }

  lemma PrepFailsKeeps(p: Proc, doomed: set<RunId>, t: nat)
    requires ExclusiveInv(p, doomed) && t in p.preps
    ensures ExclusiveInv(PrepFails(p, t), doomed)
  {
    AgentSlotProof.PrepFailsKeeps(p, t);
    SameTasks(p, PrepFails(p, t), doomed);
    assert IsTask(p, t);
    if p.slot.Preparing? {
      assert IsTask(p, p.slot.task);
    }
  }

  lemma PrepDoneKeeps(p: Proc, doomed: set<RunId>, t: nat)
    requires ExclusiveInv(p, doomed) && t in p.preps
    ensures ExclusiveInv(PrepDone(p, t), doomed)
  {
    AgentSlotProof.PrepDoneKeeps(p, t);
    SameTasks(p, PrepDone(p, t), doomed);
    assert IsTask(p, t);
    if p.slot.Preparing? {
      assert IsTask(p, p.slot.task);
    }
  }

  lemma ExecutionKeeps(p: Proc, doomed: set<RunId>, t: nat, clean: bool)
    requires ExclusiveInv(p, doomed) && t in p.engines
    ensures p.engines[t].phase.Sent? ==> ExclusiveInv(Begins(p, t), doomed)
    ensures p.engines[t].phase.Running? ==> ExclusiveInv(Ends(p, t, clean), doomed)
    ensures p.engines[t].phase.Over? ==> ExclusiveInv(Reports(p, t), doomed)
  {
    if p.engines[t].phase.Sent? {
      AgentSlotProof.BeginsKeeps(p, t);
      SameTasks(p, Begins(p, t), doomed);
    } else if p.engines[t].phase.Running? {
      AgentSlotProof.EndsKeeps(p, t, clean);
      SameTasks(p, Ends(p, t, clean), doomed);
    } else if p.engines[t].phase.Over? {
      AgentSlotProof.ReportsKeeps(p, t);
      SameTasks(p, Reports(p, t), doomed);
    }
  }

  lemma ClearsKeeps(p: Proc, doomed: set<RunId>, t: nat)
    requires ExclusiveInv(p, doomed) && CanClear(p, t)
    ensures ExclusiveInv(Clears(p, t), doomed)
  {
    AgentSlotProof.ClearsKeeps(p, t);
    SameTasks(p, Clears(p, t), doomed);
    assert IsTask(p, t);
    if p.slot.Armed? {
      assert IsTask(p, p.slot.task);
    }
  }
}
