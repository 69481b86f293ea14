/**
 The controller's mutable record of one run. Each method is one critical section and is
 proved to do what the corresponding function of `RunLifecycle` says; the ghost fields hold
 the work that tasks still owe.
 */
module ControllerRun {
  import opened Basics
  import opened RunLifecycle

  method EveryoneReported(roster: seq<AgentId>, done: map<AgentId, EndKind>, lost: set<AgentId>) returns (all: bool)
    ensures all <==> forall a :: a in roster ==> a in done || a in lost
  {
    for i := 0 to |roster|
      invariant forall j :: 0 <= j < i ==> roster[j] in done || roster[j] in lost
    {
      if roster[i] !in done && roster[i] !in lost {
        return false;
      }
    }
    return true;
  }

  method AnyReported(done: map<AgentId, EndKind>, kind: EndKind) returns (any: bool)
    ensures any <==> exists a :: a in done && done[a] == kind
  {
    var rest := done.Keys;
    while rest != {}
      invariant rest <= done.Keys && forall a :: a in done && a !in rest ==> done[a] != kind
      decreases |rest|
    {
      var a :| a in rest;
      if done[a] == kind {
        return true;
      }
      rest := rest - {a};
    }
    return false;
  }

  method EveryoneReady(phases: map<AgentId, PrepPhase>) returns (all: bool)
    ensures all <==> forall a :: a in phases ==> phases[a].Ready?
  {
    var rest := phases.Keys;
    while rest != {}
      invariant rest <= phases.Keys && forall a :: a in phases && a !in rest ==> phases[a].Ready?
      decreases |rest|
    {
      var a :| a in rest;
      if !phases[a].Ready? {
        return false;
      }
      rest := rest - {a};
    }
    return true;
  }

  /** Complete once everyone has reported or is lost; a failure outweighs an abort, an abort a finish. */
  method Decide(roster: seq<AgentId>, done: map<AgentId, EndKind>, lost: set<AgentId>) returns (verdict: Option<RunState>)
    ensures verdict == if AllReported(roster, done, lost) then Some(RunLifecycle.Verdict(done)) else None
  {
    var all := EveryoneReported(roster, done, lost);
    if !all {
      return None;
    }
    var failed := AnyReported(done, EndFailed);
    var aborted := AnyReported(done, EndAborted);
    return Some(if failed || done == map[] then Failed else if aborted then Aborted else Finished);
  }

  class Record {
    const roster: seq<AgentId>
    const onLoss: OnAgentLoss
    var state: RunState
    var phases: map<AgentId, PrepPhase>
    var failure: Option<RunState>
    var startAt: Option<int>
    var agg: multiset<Sample>
    var done: map<AgentId, EndKind>
    var lost: set<AgentId>
    var contributing: set<AgentId>
    var summary: Option<multiset<Sample>>
    ghost var barrier: Barrier
    ghost var checks: nat
    ghost var finals: multiset<RunState>
    ghost var sweep: Option<set<AgentId>>
    ghost var stops: nat
    ghost var late: multiset<Sample>
    ghost const submitInc: map<AgentId, nat>

    ghost function View(): Run
      reads this
    {
      Run(roster, onLoss, state, phases, failure, startAt, agg, done, lost, contributing, summary,
          barrier, checks, finals, sweep, stops, late, submitInc)
    }

    constructor (roster: seq<AgentId>, onLoss: OnAgentLoss, ghost incs: map<AgentId, nat>)
      ensures View() == Submitted(roster, onLoss, incs)
    {
      this.roster, this.onLoss, this.submitInc := roster, onLoss, incs;
      state, failure, startAt := Pending, None, None;
      phases := map a | a in roster :: PrepPhase.Assigned;
      agg, done, lost, contributing, summary := multiset{}, map[], {}, {}, None;
      barrier, checks, finals, sweep, stops, late := Barrier.Waiting, 0, multiset{}, None, 0, multiset{};
    }

    /** The pending check and the recording are one section, which is what excludes the start commit. */
    method RecordFailure(verdict: RunState) returns (recorded: bool)
      modifies this`failure
      ensures View() == RecordPrepFailure(old(View()), verdict) && recorded == Records(old(View()))
    {
      if state != Pending {
        return false;
      }
      if failure.None? {
        failure := Some(verdict);
      }
      return true;
    }

    method HandleReady(a: AgentId, index: nat)
      modifies this`phases
      ensures View() == AssignmentReady(old(View()), a, index)
    {
      if index >= |roster| || roster[index] != a || IsTerminal(state) {
        return;
      }
      phases := phases[a := PrepPhase.Ready];
    }

    method HandleStarted()
      modifies this`state
      ensures View() == AgentStarted(old(View()))
    {
      if state == Pending {
        state := Running;
      }
    }

    method HandleMetrics(a: AgentId, delta: int)
      modifies this`contributing, this`agg, this`late
      ensures View() == MergeDelta(old(View()), a, delta)
    {
      if IsTerminal(state) {
        late := late + multiset{Sample(a, delta)};
        return;
      }
      contributing := contributing + {a};
      agg := agg + multiset{Sample(a, delta)};
    }

    method HandleEnded(a: AgentId, kind: EndKind)
      modifies this`done, this`checks
      ensures View() == AgentEnded(old(View()), a, kind)
    {
      done := done[a := kind];
      checks := checks + 1;
    }

    /** Whether the run is complete, and with which verdict. */
    method Check() returns (verdict: Option<RunState>)
      requires checks > 0
      modifies this`checks, this`finals
      ensures View() == CheckCompletion(old(View()))
      ensures verdict ==
        if IsTerminal(state) || !AllReported(roster, done, lost) then None else Some(RunLifecycle.Verdict(done))
    {
      checks := checks - 1;
      if IsTerminal(state) {
        return None;
      }
      verdict := Decide(roster, done, lost);
      if verdict.Some? {
        finals := finals + multiset{verdict.value};
      }
    }

    /** The first finalization wins: the summary and the terminal state appear together. */
    method Settle(verdict: RunState) returns (won: bool)
      requires verdict in finals
      modifies this`finals, this`state, this`summary
      ensures View() == Finalize(old(View()), verdict) && won == !IsTerminal(old(state))
    {
      finals := finals - multiset{verdict};
      if IsTerminal(state) {
        return false;
      }
      summary := Some(agg);
      state := verdict;
      return true;
    }

    /** The sweep's selection, in the order the expired agents were listed. */
    method SelectLost(expired: seq<AgentId>) returns (newly: seq<AgentId>)
      requires sweep.None?
      modifies this`sweep
      ensures View() == SweepSelect(old(View()), set a | a in expired)
      ensures sweep.Some? ==> sweep.value == (set a | a in newly)
      ensures sweep.None? ==> newly == []
    {
      newly := [];
      if IsTerminal(state) {
        return;
      }
      for i := 0 to |expired|
        invariant forall a :: a in newly <==> a in expired[..i] && a in roster && a !in lost && a !in done
      {
        assert expired[..i + 1] == expired[..i] + [expired[i]];
        if expired[i] in roster && expired[i] !in lost && expired[i] !in done {
          newly := newly + [expired[i]];
        }
      }
      assert expired[..|expired|] == expired;
      ghost var picked := set a | a in newly;
      assert picked == NewlyLost(View(), set a | a in expired);
      if newly != [] {
        assert newly[0] in picked;
        sweep := Some(picked);
      } else {
        assert picked == {};
      }
    }

    method MarkLost(a: AgentId)
      requires sweep.Some? && a in sweep.value
      modifies this`lost, this`sweep
      ensures View() == SweepMark(old(View()), a)
    {
      lost := lost + {a};
      sweep := Some(sweep.value - {a});
    }

    method ApplyLossPolicy()
      modifies this`checks, this`finals
      ensures View() == LossPolicy(old(View()))
    {
      match onLoss
      case Continue => checks := checks + 1;
      case Abort => finals := finals + multiset{Failed};
    }

    method SettleSweep()
      requires sweep == Some({})
      modifies this`sweep, this`failure, this`checks, this`finals
      ensures View() == SweepSettle(old(View()))
    {
      sweep := None;
      var recorded := RecordFailure(Failed);
      if !recorded {
        ApplyLossPolicy();
      }
    }

    /** The agent's process restarted while reserved for this run. */
    method TerminateParticipation(a: AgentId)
      modifies this`failure, this`lost, this`checks, this`finals
      ensures View() == Restarted(old(View()), a)
    {
      var recorded := RecordFailure(Failed);
      if recorded || IsTerminal(state) || a in done {
        return;
      }
      lost := lost + {a};
      ApplyLossPolicy();
    }

    method Resume(a: AgentId) returns (credible: bool)
      modifies this`lost
      ensures View() == Resumed(old(View()), a) && credible == Resumes(old(View()), a)
    {
      if a !in roster || IsTerminal(state) || a in done {
        return false;
      }
      lost := lost - {a};
      return true;
    }

    /** One pass of the barrier's loop; the commit stores the one start time and resets the aggregate. */
    method Poll(at: int) returns (verdict: Option<RunState>)
      requires barrier.Waiting?
      modifies this`barrier, this`startAt, this`agg, this`state
      ensures View() == BarrierPoll(old(View()), at)
      ensures verdict == if barrier.Failing? then Some(barrier.verdict) else None
    {
      if IsTerminal(state) {
        barrier := Barrier.Ended;
        return None;
      }
      if failure.Some? {
        barrier := Failing(failure.value);
        return failure;
      }
      var ready := EveryoneReady(phases);
      if ready {
        startAt := Some(at);
        agg := multiset{};
        state := Running;
        barrier := Broadcasting;
      }
      return None;
    }

    /** The barrier's failure path, with the verdict its loop or its timeout decided. */
    method FailPreparation(verdict: RunState)
      requires barrier == Failing(verdict)
      modifies this`barrier, this`state, this`summary
      ensures View() == BarrierFail(old(View()))
    {
      barrier := Barrier.Ended;
      if IsTerminal(state) {
        return;
      }
      summary := Some(agg);
      state := verdict;
    }

    /** A stop before the start goes to the barrier; after it, to the agents. */
    method StopRequested() returns (recorded: bool)
      modifies this`failure, this`stops
      ensures View() == UserStop(old(View())) && recorded == Records(old(View()))
    {
      recorded := RecordFailure(Aborted);
      if !recorded {
        stops := stops + 1;
      }
    }

    method StopAcknowledged()
      requires stops > 0
      modifies this`stops, this`state
      ensures View() == MarkStopping(old(View()))
    {
      stops := stops - 1;
      if !IsTerminal(state) {
        state := Stopping;
      }
    }
  }
}
