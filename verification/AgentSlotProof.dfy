/** The agent slot is safe under every schedule, and exclusive under the controller's protocol. */
module AgentSlotProof {
  import opened Basics
  import opened AgentSlot

  /** A dead task stays dead. */
  ghost predicate StaysDead(p: Proc, p': Proc) {
    forall t: nat :: Dead(p, t) ==> Dead(p', t)
  }

  lemma AssignmentKeeps(p: Proc, run: RunId, index: nat, count: nat)
    requires ProcInv(p)
    ensures ProcInv(OnAssignment(p, run, index, count)) && StaysDead(p, OnAssignment(p, run, index, count))
  {
  }

  lemma StartKeeps(p: Proc, run: RunId, at: int)
    requires ProcInv(p)
    ensures ProcInv(OnStart(p, run, at)) && StaysDead(p, OnStart(p, run, at))
  {
  }

  lemma HaltKeeps(p: Proc, run: RunId)
    requires ProcInv(p)
    ensures ProcInv(OnHalt(p, run)) && StaysDead(p, OnHalt(p, run))
  {
  }

  lemma PrepFailsKeeps(p: Proc, t: nat)
    requires ProcInv(p) && t in p.preps
    ensures ProcInv(PrepFails(p, t)) && StaysDead(p, PrepFails(p, t))
  {
  }

  lemma PrepDoneKeeps(p: Proc, t: nat)
    requires ProcInv(p) && t in p.preps
    ensures ProcInv(PrepDone(p, t)) && StaysDead(p, PrepDone(p, t))
  {
  }

  lemma BeginsKeeps(p: Proc, t: nat)
    requires ProcInv(p) && t in p.engines && p.engines[t].phase.Sent?
    ensures ProcInv(Begins(p, t)) && StaysDead(p, Begins(p, t))
  {
  }

  lemma EndsKeeps(p: Proc, t: nat, clean: bool)
    requires ProcInv(p) && t in p.engines && p.engines[t].phase.Running?
    ensures ProcInv(Ends(p, t, clean)) && StaysDead(p, Ends(p, t, clean))
  {
  }

  lemma ReportsKeeps(p: Proc, t: nat)
    requires ProcInv(p) && t in p.engines && p.engines[t].phase.Over?
    ensures ProcInv(Reports(p, t)) && StaysDead(p, Reports(p, t))
  {
  }

  lemma ClearsKeeps(p: Proc, t: nat)
    requires ProcInv(p) && CanClear(p, t)
    ensures ProcInv(Clears(p, t)) && StaysDead(p, Clears(p, t))
  {
  }

  lemma StepKeeps(p: Proc, step: ProcStep)
    requires ProcInv(p)
    ensures ProcInv(Do(p, step)) && StaysDead(p, Do(p, step))
  {
    match step
    case GetAssignment(r, i, n) => AssignmentKeeps(p, r, i, n);
    case GetStart(r, at) => StartKeeps(p, r, at);
    case GetHalt(r) => HaltKeeps(p, r);
    case TaskFails(t) => if t in p.preps { PrepFailsKeeps(p, t); }
    case TaskArms(t) => if t in p.preps { PrepDoneKeeps(p, t); }
    case TaskBegins(t) => if t in p.engines && p.engines[t].phase.Sent? { BeginsKeeps(p, t); }
    case TaskEnds(t, clean) => if t in p.engines && p.engines[t].phase.Running? { EndsKeeps(p, t, clean); }
    case TaskReports(t) => if t in p.engines && p.engines[t].phase.Over? { ReportsKeeps(p, t); }
    case TaskClears(t) => if CanClear(p, t) { ClearsKeeps(p, t); }
    case Posted(m) =>
  }

  lemma {:induction false} ScheduleKeeps(steps: seq<ProcStep>)
    ensures ProcInv(Schedule(steps))
  {
    if steps != [] {
      ScheduleKeeps(steps[..|steps| - 1]);
      StepKeeps(Schedule(steps[..|steps| - 1]), steps[|steps| - 1]);
    }
  }

  lemma {:induction false} DeadForever(steps: seq<ProcStep>, more: seq<ProcStep>, t: nat)
    requires Dead(Schedule(steps), t)
    ensures Dead(Schedule(steps + more), t)
  {
    if more == [] {
      assert steps + more == steps;
    } else {
      var init := more[..|more| - 1];
      DeadForever(steps, init, t);
      assert (steps + more)[..|steps + more| - 1] == steps + init;
      ScheduleKeeps(steps + init);
      StepKeeps(Schedule(steps + init), more[|more| - 1]);
    }
  }

  /** An engine cancelled while preparing, or disarmed before its start, never runs, whatever follows. */
  lemma CancelledNeverRuns(steps: seq<ProcStep>, more: seq<ProcStep>, t: nat)
    requires var p := Schedule(steps);
      || (t in p.preps && p.preps[t].cancelled)
      || (t in p.engines && p.engines[t].phase.Dropped?)
    ensures forall i :: 0 <= i < |Schedule(steps + more).ran| ==> Schedule(steps + more).ran[i].task != t
  {
    ScheduleKeeps(steps);
    assert Dead(Schedule(steps), t);
    DeadForever(steps, more, t);
  }

  /** Each engine runs at most once, and only on a Start that was received for its run. */
  lemma RunsOnceOnItsStart(steps: seq<ProcStep>)
    ensures var p := Schedule(steps);
      && (forall i, j :: 0 <= i < j < |p.ran| ==> p.ran[i].task != p.ran[j].task)
      && (forall i :: 0 <= i < |p.ran| ==> GetStart(p.ran[i].run, p.ran[i].at) in steps)
  {
    ScheduleKeeps(steps);
    StartsWereReceived(steps);
  }

  lemma {:induction false} StartsWereReceived(steps: seq<ProcStep>)
    ensures forall s :: s in Schedule(steps).starts ==> GetStart(s.run, s.at) in steps
  {
    if steps != [] {
      var init := steps[..|steps| - 1];
      StartsWereReceived(init);
      forall s | s in Schedule(steps).starts ensures GetStart(s.run, s.at) in steps {
        if s in Schedule(init).starts {
          assert GetStart(s.run, s.at) in init;
        } else {
          assert steps[|steps| - 1] == GetStart(s.run, s.at);
        }
      }
    }
  }
}
