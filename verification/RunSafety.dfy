/** What one run guarantees over every interleaving of its recorders, its barrier and its observers. */
module RunSafety {
  import opened Basics
  import opened RunLifecycle

  lemma EvolvesTransitive(r: Run, s: Run, t: Run)
    requires Evolves(r, s) && Evolves(s, t)
    ensures Evolves(r, t)
  {
  }

  function Trace(r: Run, steps: seq<RunStep>): Run {
    if steps == [] then r
    else
      var s := Trace(r, steps[..|steps| - 1]);
      var step := steps[|steps| - 1];
      if Enabled(s, step) then Apply(s, step) else s
  }

  lemma {:induction false} TraceEvolves(r: Run, steps: seq<RunStep>)
    requires RunInv(r)
    ensures RunInv(Trace(r, steps)) && Evolves(r, Trace(r, steps))
  {
    if steps != [] {
      var s, step := Trace(r, steps[..|steps| - 1]), steps[|steps| - 1];
      TraceEvolves(r, steps[..|steps| - 1]);
      if Enabled(s, step) {
        StepKeeps(s, step);
        EvolvesTransitive(r, s, Apply(s, step));
      }
    }
  }

  /**
   Start and pre-start failure exclude each other. Once a preparation failure, a user stop before
   the start or a preparation timeout is decided, no later step commits a start.
   */
  lemma NoStartAfterFailure(r: Run, steps: seq<RunStep>)
    requires RunInv(r) && !Committed(r)
    requires r.failure.Some? || r.barrier.Failing?
    ensures var s := Trace(r, steps);
      && !Committed(s) && !s.barrier.Broadcasting?
      && (IsTerminal(s.state) || s.state.Pending?)
  {
    TraceEvolves(r, steps);
  }

  /** A committed run is never finalized by the barrier's failure path, and keeps its one start time. */
  lemma NoFailureAfterStart(r: Run, steps: seq<RunStep>)
    requires RunInv(r) && Committed(r)
    ensures var s := Trace(r, steps);
      && s.failure.None? && !s.barrier.Failing? && !s.state.Pending?
      && !Enabled(s, OnFail) && s.startAt == r.startAt
      && (forall v :: IsTerminal(v) ==> RecordPrepFailure(s, v) == s)
  {
    TraceEvolves(r, steps);
  }

  /** A pending run becomes running in one way only: the barrier commits it with every agent ready. */
  lemma OnlyTheBarrierStarts(r: Run, step: RunStep)
    requires RunInv(r) && Enabled(r, step) && r.state.Pending?
    ensures Apply(r, step).state.Running? ==>
      && step.OnPoll? && Apply(r, step).startAt == Some(step.at)
      && r.failure.None? && (forall a :: a in r.roster ==> r.phases[a].Ready?)
      && r.agg == multiset{}
  {
  }

  /** Terminal states are absorbing and the summary, written with them, never changes again. */
  lemma TerminalFreeze(r: Run, steps: seq<RunStep>)
    requires RunInv(r)
    ensures var s := Trace(r, steps);
      && (IsTerminal(r.state) ==> s.state == r.state && s.summary == r.summary && s.contributing == r.contributing)
      && (s.summary.Some? <==> IsTerminal(s.state))
      && (s.summary.Some? ==>
        forall a :: a in s.contributing <==> exists x :: x in s.summary.value && x.agent == a)
  {
    TraceEvolves(r, steps);
  }

  /** A committed, unsettled run whose agents have all reported or been lost always has someone about to look. */
  lemma NoMissedCompletion(r: Run, steps: seq<RunStep>)
    requires RunInv(r)
    ensures var s := Trace(r, steps);
      Committed(s) && !IsTerminal(s.state)
        && (forall a :: a in s.roster ==> a in s.done || a in s.lost) ==>
        s.checks > 0 || s.finals != multiset{} || s.sweep.Some?
  {
    TraceEvolves(r, steps);
  }

  /** What a completion check decides, at the moment it decides. */
  lemma CheckVerdict(r: Run)
    requires RunInv(r) && r.checks > 0
    ensures var r' := CheckCompletion(r);
      var decides := !IsTerminal(r.state) && forall a :: a in r.roster ==> a in r.done || a in r.lost;
      if decides then
        && r'.finals == r.finals + multiset{Verdict(r.done)}
        && (Verdict(r.done) == Finished <==> r.done != map[] && forall a :: a in r.done ==> r.done[a] == EndFinished)
        && (Verdict(r.done) == Failed <==> r.done == map[] || exists a :: a in r.done && r.done[a] == EndFailed)
      else r' == r.(checks := r.checks - 1)
  {
    var r' := CheckCompletion(r);
    if !IsTerminal(r.state) && forall a :: a in r.roster ==> a in r.done || a in r.lost {
      var v := Verdict(r.done);
      assert AllReported(r.roster, r.done, r.lost);
      assert r'.finals == r.finals + multiset{v};
      if v == Finished {
        var a :| a in r.done;
        forall a | a in r.done ensures r.done[a] == EndFinished {
          assert !AnyKind(r.done, EndFailed) && !AnyKind(r.done, EndAborted);
        }
      }
    }
  }

  // ------------------------------------------------------------------- who decides what

  /** Finalizations are owed by checks and losses, and taken only by finalizing. */
  lemma FinalsGrow(r: Run, step: RunStep)
    requires Enabled(r, step) && !step.OnFinalize?
    ensures Apply(r, step).finals == r.finals || exists w :: Apply(r, step).finals == r.finals + multiset{w}
  {
    match step
    case OnCheck =>
      var r' := CheckCompletion(r);
      assert r'.finals == r.finals || r'.finals == r.finals + multiset{Verdict(r.done)};
    case OnSweepSettle =>
      var r' := SweepSettle(r);
      assert r'.finals == r.finals || r'.finals == r.finals + multiset{Failed};
    case OnRestart(a) =>
      var r' := Restarted(r, a);
      assert r'.finals == r.finals || r'.finals == r.finals + multiset{Failed};
    case _ =>
  }

  lemma OwedStep(r: Run, step: RunStep, v: RunState)
    requires (forall w :: w in r.finals ==> IsTerminal(w)) && Enabled(r, step) && v in r.finals
    ensures IsTerminal(Apply(r, step).state) || v in Apply(r, step).finals
  {
    if !step.OnFinalize? {
      FinalsGrow(r, step);
    }
  }

  /** A finalization that is owed stays owed until the run is settled. */
  lemma {:induction false} OwedUntilSettled(r: Run, steps: seq<RunStep>, v: RunState)
    requires RunInv(r) && v in r.finals
    ensures IsTerminal(Trace(r, steps).state) || v in Trace(r, steps).finals
  {
    if steps != [] {
      var s, step := Trace(r, steps[..|steps| - 1]), steps[|steps| - 1];
      OwedUntilSettled(r, steps[..|steps| - 1], v);
      TraceEvolves(r, steps[..|steps| - 1]);
      if Enabled(s, step) {
        StepKeeps(s, step);
        if v in s.finals {
          OwedStep(s, step, v);
        }
      }
    }
  }

  /**
   A loss after the start follows the run's policy: `Abort` owes the failed verdict from then on,
   until the run is settled; `Continue` decides nothing itself and owes one more completion check.
   */
  lemma LossFollowsPolicy(r: Run, steps: seq<RunStep>)
    requires RunInv(r) && Committed(r) && !IsTerminal(r.state) && r.sweep == Some({})
    ensures r.onLoss.Abort? ==>
      var s := Trace(SweepSettle(r), steps); IsTerminal(s.state) || Failed in s.finals
    ensures r.onLoss.Continue? ==>
      SweepSettle(r).finals == r.finals && SweepSettle(r).checks == r.checks + 1
  {
    SweepSettleKeeps(r);
    if r.onLoss.Abort? {
      OwedUntilSettled(SweepSettle(r), steps, Failed);
    }
  }

  /** The verdicts that can settle a run which recorded `v` before its start. */
  predicate BoundFor(r: Run, v: RunState) {
    && r.failure == Some(v)
    && (r.barrier.Failing? ==> r.barrier.verdict == v || r.barrier.verdict == Failed)
    && (IsTerminal(r.state) ==> r.state == v || r.state == Failed)
  }

  lemma BoundStep(r: Run, step: RunStep, v: RunState)
    requires Enabled(r, step) && BoundFor(r, v) && !Committed(r) && (IsTerminal(r.state) || r.state.Pending?)
    requires !IsTerminal(r.state) ==> r.checks == 0 && r.finals == multiset{} && r.stops == 0
    ensures BoundFor(Apply(r, step), v)
  {
  }

  /** The first recorded failure decides: the run settles with its verdict, or fails on the timeout. */
  lemma {:induction false} FirstFailureDecides(r: Run, steps: seq<RunStep>, v: RunState)
    requires RunInv(r) && BoundFor(r, v)
    ensures BoundFor(Trace(r, steps), v)
  {
    if steps != [] {
      var s, step := Trace(r, steps[..|steps| - 1]), steps[|steps| - 1];
      FirstFailureDecides(r, steps[..|steps| - 1], v);
      TraceEvolves(r, steps[..|steps| - 1]);
      if Enabled(s, step) {
        BoundStep(s, step, v);
      }
    }
  }
}
