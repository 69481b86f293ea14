/** What the composed fleet guarantees after every schedule. */
module FleetTheorems {
  import opened Basics
  import UplinkWindow
  import L = Delivery
  import LP = DeliveryProof
  import R = RunLifecycle
  import RS = RunSafety
  import S = AgentSlot
  import E = AgentExclusive
  import M = FleetMono
  import opened Fleet
  import opened FleetInv
  import AP = FleetAgentProof
  import SP = FleetStreamProof
  import RP = FleetReadProof
  import CP = FleetControlProof
  import PP = FleetProcessProof
  import TP = FleetSeatProof
  import UP = FleetSubmitProof

  predicate IsEngineStep(step: FleetStep) {
    step.EngineBegin? || step.EngineEmit? || step.EngineEnd? || step.EngineReport?
  }

  lemma EngineStepKeeps(f: Fleet, step: FleetStep)
    requires Inv(f) && IsEngineStep(step) && AgentEnabled(f, step)
    ensures Inv(AgentNext(f, step)) && AgentNext(f, step).runs == f.runs
  {
    match step
    case EngineBegin(a, t, size) => AP.BeginStep(f, a, t, size);
    case EngineEmit(a, t, d, size) => AP.EmitStep(f, a, t, d, size);
    case EngineEnd(a, t, clean) => AP.EndStep(f, a, t, clean);
    case EngineReport(a, t, k, size) => AP.EndReportStep(f, a, t, k, size);
  }

  lemma TaskStepKeeps(f: Fleet, step: FleetStep)
    requires Inv(f) && IsAgentStep(step) && !IsEngineStep(step) && AgentEnabled(f, step)
    ensures Inv(AgentNext(f, step)) && AgentNext(f, step).runs == f.runs
  {
    match step
    case AgentTask(a, t, fails) => AP.TaskStep(f, a, t);
    case AgentReport(a, m, size) => AP.ReportStep(f, a, m, size);
    case EngineClear(a, t) => AP.ClearStep(f, a, t);
  }

  predicate IsInbound(step: FleetStep) {
    step.AgentRead? || step.CtlReceive?
  }

  lemma InboundStepKeeps(f: Fleet, step: FleetStep)
    requires Inv(f) && IsInbound(step) && StreamEnabled(f, step)
    ensures Inv(StreamNext(f, step)) && StreamNext(f, step).runs == f.runs
  {
    match step
    case AgentRead(a) => RP.ReadStep(f, a);
    case CtlReceive(a, c, lost) => SP.ReceiveStep(f, a, c, lost);
  }

  predicate IsOutbound(step: FleetStep) {
    step.AgentWrite? || step.AgentBeat?
  }

  lemma OutboundStepKeeps(f: Fleet, step: FleetStep)
    requires Inv(f) && IsOutbound(step) && StreamEnabled(f, step)
    ensures Inv(StreamNext(f, step)) && StreamNext(f, step).runs == f.runs
  {
    match step
    case AgentWrite(a) => SP.WriteStep(f, a);
    case AgentBeat(a) => SP.BeatStep(f, a);
  }

  lemma SessionStepKeeps(f: Fleet, step: FleetStep)
    requires Inv(f) && IsStreamStep(step) && !IsInbound(step) && !IsOutbound(step) && StreamEnabled(f, step)
    ensures Inv(StreamNext(f, step)) && StreamNext(f, step).runs == f.runs
  {
    match step
    case AgentCrash(a) => SP.CrashStep(f, a);
    case AgentDial(a) => SP.DialStep(f, a);
    case AgentAttach(a) => SP.AttachStep(f, a);
    case AgentLose(a) => SP.LoseStep(f, a);
  }

  lemma ControlStepKeeps(f: Fleet, step: FleetStep)
    requires Inv(f) && !IsAgentStep(step) && !IsStreamStep(step) && ControlEnabled(f, step)
    ensures Inv(ControlNext(f, step))
  {
    match step
    case CtlSeat(a, c, session, lost) => TP.SeatStep(f, a, c, session, lost);
    case CtlProcess(a, m, lost) => PP.ProcessStep(f, a, m, lost);
    case CtlProgress(r, s) => CP.ProgressStep(f, r, s);
    case CtlStart(r, a) => CP.StartStep(f, r, a);
    case CtlHalt(r, a) => CP.HaltStep(f, r, a);
    case CtlSubmit(r, chosen, onLoss) => UP.SubmitStep(f, r, chosen, onLoss);
  }

  lemma StepKeeps(f: Fleet, step: FleetStep)
    requires Inv(f) && Enabled(f, step)
    ensures Inv(Next(f, step))
    ensures IsAgentStep(step) || IsStreamStep(step) ==> Next(f, step).runs == f.runs
  {
    if IsEngineStep(step) {
      EngineStepKeeps(f, step);
    } else if IsAgentStep(step) {
      TaskStepKeeps(f, step);
    } else if IsInbound(step) {
      InboundStepKeeps(f, step);
    } else if IsOutbound(step) {
      OutboundStepKeeps(f, step);
    } else if IsStreamStep(step) {
      SessionStepKeeps(f, step);
    } else {
      ControlStepKeeps(f, step);
    }
  }

  lemma SameRunsEvolve(runs: Runs)
    ensures RunsEvolve(runs, runs)
  {
    forall r | r in runs ensures R.Evolves(runs[r], runs[r]) {
      M.Reflexive(runs[r]);
    }
  }

  lemma ControlStepEvolves(f: Fleet, step: FleetStep)
    requires Inv(f) && !IsAgentStep(step) && !IsStreamStep(step) && ControlEnabled(f, step)
    ensures RunsEvolve(f.runs, ControlNext(f, step).runs)
  {
    SameRunsEvolve(f.runs);
    match step
    case CtlSeat(a, c, _, _) => TP.FollowupTouches(f, a, c);
    case CtlProcess(a, m, _) => PP.ProcessRuns(f, a, m);
    case CtlProgress(r, s) => CP.ProgressRuns(f, r, s);
    case CtlSubmit(r, chosen, onLoss) => UP.SubmitRuns(f, r, chosen, onLoss);
    case _ =>
  }

  lemma StepEvolves(f: Fleet, step: FleetStep)
    requires Inv(f) && Enabled(f, step)
    ensures RunsEvolve(f.runs, Next(f, step).runs)
  {
    if IsAgentStep(step) || IsStreamStep(step) {
      StepKeeps(f, step);
      SameRunsEvolve(f.runs);
    } else {
      ControlStepEvolves(f, step);
    }
  }

  lemma InitialInv(agents: set<AgentId>, limits: UplinkWindow.Limits)
    ensures Inv(Initial(agents, limits))
  {
    var f := Initial(agents, limits);
    LP.FreshKeeps(limits);
    forall a | a in f.links ensures AgentInv(a, f.links[a], f.procs[a], f.active[a], f.runs) {
      E.IdleIsExclusive(DoomedRuns(f.runs));
    }
  }

  /** A fleet reached from its initial state by some schedule. */
  ghost predicate Reached(f: Fleet, agents: set<AgentId>, limits: UplinkWindow.Limits, steps: seq<FleetStep>) {
    f == After(Initial(agents, limits), steps)
  }

  lemma {:induction false} AfterKeeps(f: Fleet, steps: seq<FleetStep>)
    requires Inv(f)
    ensures Inv(After(f, steps)) && RunsEvolve(f.runs, After(f, steps).runs)
  {
    if steps == [] {
      SameRunsEvolve(f.runs);
    } else {
      var g, step := After(f, steps[..|steps| - 1]), steps[|steps| - 1];
      AfterKeeps(f, steps[..|steps| - 1]);
      if Enabled(g, step) {
        StepKeeps(g, step);
        StepEvolves(g, step);
        EvolveOn(f.runs, g.runs, Next(g, step).runs);
      }
    }
  }

  lemma EvolveOn(x: Runs, y: Runs, z: Runs)
    requires RunsEvolve(x, y) && RunsEvolve(y, z)
    ensures RunsEvolve(x, z)
  {
    forall r | r in x ensures r in z && R.Evolves(x[r], z[r]) {
      RS.EvolvesTransitive(x[r], y[r], z[r]);
    }
  }

  lemma ReachedInv(f: Fleet, agents: set<AgentId>, limits: UplinkWindow.Limits, steps: seq<FleetStep>)
    requires Reached(f, agents, limits, steps)
    ensures Inv(f)
  {
    InitialInv(agents, limits);
    AfterKeeps(Initial(agents, limits), steps);
  }
}
