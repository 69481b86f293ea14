/**
 One distributed run as the controller sees it: the preparation barrier, the failure
 recorders, loss and resume, completion and the frozen terminal summary.

 Every function is one critical section. Work a task still has to do after releasing its
 locks is part of the state: completion checks and finalizations that are owed, a sweep in
 progress, a user stop waiting for acknowledgements, and the barrier task's position.
 */
module RunLifecycle {
  import opened Basics

  datatype RunState = Pending | Running | Stopping | Finished | Aborted | Failed

  predicate IsTerminal(s: RunState) {
    s.Finished? || s.Aborted? || s.Failed?
  }

  datatype OnAgentLoss = Continue | Abort

  datatype PrepPhase = Assigned | Ready

  /** The barrier task: waiting, broadcasting a committed start, about to finalize a failure, or gone. */
  datatype Barrier = Waiting | Broadcasting | Failing(verdict: RunState) | Ended

  /** One merged metric delta, labelled with the session's agent id. */
  datatype Sample = Sample(agent: AgentId, delta: int)

  datatype Run = Run(
    roster: seq<AgentId>,
    onLoss: OnAgentLoss,
    state: RunState,
    phases: map<AgentId, PrepPhase>,
    failure: Option<RunState>,
    startAt: Option<int>,
    agg: multiset<Sample>,
    done: map<AgentId, EndKind>,
    lost: set<AgentId>,
    contributing: set<AgentId>,
    summary: Option<multiset<Sample>>,
    barrier: Barrier,
    // Owed work.
    checks: nat,
    finals: multiset<RunState>,
    sweep: Option<set<AgentId>>,
    stops: nat,
    // History: deltas dropped after the freeze, and each agent's incarnation at submission.
    late: multiset<Sample>,
    submitInc: map<AgentId, nat>)

  function Submitted(roster: seq<AgentId>, onLoss: OnAgentLoss, incs: map<AgentId, nat>): Run {
    Run(roster, onLoss, Pending, map a | a in roster :: PrepPhase.Assigned, None, None,
        multiset{}, map[], {}, {}, None, Waiting, 0, multiset{}, None, 0, multiset{}, incs)
  }

  // ------------------------------------------------------------------- recorders

  /** `record_prep_failure`: takes effect, and returns true, only while the run is pending. */
  predicate Records(r: Run) {
    r.state.Pending?
  }

  function RecordPrepFailure(r: Run, verdict: RunState): Run {
    if Records(r) && r.failure.None? then r.(failure := Some(verdict)) else r
  }

  predicate HoldsPartition(r: Run, a: AgentId, index: nat) {
    index < |r.roster| && r.roster[index] == a
  }

  /** `handle_assignment_ready`. */
  function AssignmentReady(r: Run, a: AgentId, index: nat): Run {
    if !HoldsPartition(r, a, index) || IsTerminal(r.state) then r
    else r.(phases := r.phases[a := PrepPhase.Ready])
  }

  /** The `started` event. */
  function AgentStarted(r: Run): Run {
    if r.state.Pending? then r.(state := Running) else r
  }

  /** A metrics batch, applied under the state lock: merged whole before the freeze, dropped after it. */
  function MergeDelta(r: Run, a: AgentId, delta: int): Run {
    var s := Sample(a, delta);
    if IsTerminal(r.state) then r.(late := r.late + multiset{s})
    else r.(contributing := r.contributing + {a}, agg := r.agg + multiset{s})
  }

  /** A terminal event: record it, then owe a completion check. */
  function AgentEnded(r: Run, a: AgentId, kind: EndKind): Run {
    r.(done := r.done[a := kind], checks := r.checks + 1)
  }

  // ------------------------------------------------------- completion and the freeze

  predicate AllReported(roster: seq<AgentId>, done: map<AgentId, EndKind>, lost: set<AgentId>) {
    forall i :: 0 <= i < |roster| ==> roster[i] in done || roster[i] in lost
  }

  predicate AnyKind(done: map<AgentId, EndKind>, kind: EndKind) {
    exists a :: a in done && done[a] == kind
  }

  function Verdict(done: map<AgentId, EndKind>): RunState {
    if AnyKind(done, EndFailed) || done == map[] then Failed
    else if AnyKind(done, EndAborted) then Aborted
    else Finished
  }

  /** `check_completion`: decides a verdict and owes the finalization, or stands down. */
  function CheckCompletion(r: Run): Run
    requires r.checks > 0
  {
    var r1 := r.(checks := r.checks - 1);
    if IsTerminal(r.state) || !AllReported(r.roster, r.done, r.lost) then r1
    else r1.(finals := r1.finals + multiset{Verdict(r.done)})
  }

  /** `finalize_run`: the summary and the terminal state appear together, once. */
  function Freeze(r: Run, verdict: RunState): Run {
    if IsTerminal(r.state) then r else r.(state := verdict, summary := Some(r.agg))
  }

  function Finalize(r: Run, verdict: RunState): Run
    requires verdict in r.finals
  {
    Freeze(r.(finals := r.finals - multiset{verdict}), verdict)
  }

  // ------------------------------------------------------------- loss, restart, resume

  function LossPolicy(r: Run): Run {
    match r.onLoss
    case Continue => r.(checks := r.checks + 1)
    case Abort => r.(finals := r.finals + multiset{Failed})
  }

  /** The expired agents this run still counts on. */
  function NewlyLost(r: Run, expired: set<AgentId>): set<AgentId> {
    set a | a in expired && a in r.roster && a !in r.lost && a !in r.done
  }

  /** The sweep picks them... */
  function SweepSelect(r: Run, expired: set<AgentId>): Run {
    var newly := NewlyLost(r, expired);
    if IsTerminal(r.state) || r.sweep.Some? || newly == {} then r else r.(sweep := Some(newly))
  }

  /** ... marks them lost one by one ... */
  function SweepMark(r: Run, a: AgentId): Run
    requires r.sweep.Some? && a in r.sweep.value
  {
    r.(lost := r.lost + {a}, sweep := Some(r.sweep.value - {a}))
  }

  /** ... and settles: a preparation failure before the start, the loss policy after it. */
  function SweepSettle(r: Run): Run
    requires r.sweep == Some({})
  {
    var r1 := r.(sweep := None);
    if Records(r) then RecordPrepFailure(r1, Failed) else LossPolicy(r1)
  }

  /** `terminate_participation`: the process restarted while reserved for this run. */
  function Restarted(r: Run, a: AgentId): Run {
    if Records(r) then RecordPrepFailure(r, Failed)
    else if IsTerminal(r.state) || a in r.done then r
    else LossPolicy(r.(lost := r.lost + {a}))
  }

  /** A credible resume claim lets the agent count again. */
  predicate Resumes(r: Run, a: AgentId) {
    a in r.roster && !IsTerminal(r.state) && a !in r.done
  }

  function Resumed(r: Run, a: AgentId): Run {
    if Resumes(r, a) then r.(lost := r.lost - {a}) else r
  }

  // ---------------------------------------------------------------- the start barrier

  predicate AllReady(phases: map<AgentId, PrepPhase>) {
    forall a :: a in phases ==> phases[a].Ready?
  }

  /** One pass of the barrier's wait loop, under the state lock. */
  function BarrierPoll(r: Run, at: int): Run
    requires r.barrier.Waiting?
  {
    if IsTerminal(r.state) then r.(barrier := Barrier.Ended)
    else if r.failure.Some? then r.(barrier := Failing(r.failure.value))
    else if AllReady(r.phases) then
      r.(startAt := Some(at), agg := multiset{}, state := Running, barrier := Broadcasting)
    else r
  }

  function BarrierTimeout(r: Run): Run
    requires r.barrier.Waiting?
  {
    r.(barrier := Failing(Failed))
  }

  /** The barrier leaves: the controller shuts down, or the broadcast is over. */
  function BarrierLeave(r: Run): Run
    requires r.barrier.Waiting? || r.barrier.Broadcasting?
  {
    r.(barrier := Barrier.Ended)
  }

  function BarrierFail(r: Run): Run
    requires r.barrier.Failing?
  {
    Freeze(r.(barrier := Barrier.Ended), r.barrier.verdict)
  }

  // ------------------------------------------------------------------ the user's stop

  function UserStop(r: Run): Run {
    if Records(r) then RecordPrepFailure(r, Aborted) else r.(stops := r.stops + 1)
  }

  /** Every agent acknowledged the stop. */
  function MarkStopping(r: Run): Run
    requires r.stops > 0
  {
    var r1 := r.(stops := r.stops - 1);
    if IsTerminal(r.state) then r1 else r1.(state := Stopping)
  }

  // ------------------------------------------------------------------------ invariant

  predicate Committed(r: Run) {
    r.startAt.Some?
  }

  /** The run can no longer start. */
  predicate Doomed(r: Run) {
    r.startAt.None? && (r.failure.Some? || !r.barrier.Waiting? || IsTerminal(r.state))
  }

  ghost predicate Distinct(ids: seq<AgentId>) {
    forall i, j :: 0 <= i < j < |ids| ==> ids[i] != ids[j]
  }

  /** Some task will still look at this run's completion. */
  predicate CompletionOwed(r: Run) {
    r.checks > 0 || r.finals != multiset{} || r.sweep.Some?
  }

  ghost predicate RosterInv(roster: seq<AgentId>, phases: map<AgentId, PrepPhase>) {
    && roster != [] && Distinct(roster)
    && (forall a :: a in phases <==> a in roster)
  }

  /** An agent contributes exactly when one of its deltas is in the aggregate. */
  ghost predicate ContributingInv(contributing: set<AgentId>, agg: multiset<Sample>) {
    forall a :: a in contributing <==> exists s :: s in agg && s.agent == a
  }

  ghost predicate VerdictsInv(finals: multiset<RunState>, failure: Option<RunState>, barrier: Barrier) {
    && (forall v :: v in finals ==> IsTerminal(v))
    && (failure.Some? ==> IsTerminal(failure.value))
    && (barrier.Failing? ==> IsTerminal(barrier.verdict))
  }

  ghost predicate RunInv(r: Run) {
    && RosterInv(r.roster, r.phases)
    && ContributingInv(r.contributing, r.agg)
    && VerdictsInv(r.finals, r.failure, r.barrier)
    // The freeze.
    && (r.summary.Some? <==> IsTerminal(r.state))
    && (r.summary.Some? ==> r.summary.value == r.agg)
    // Before the commit.
    && (!Committed(r) ==>
      && (r.state.Pending? || IsTerminal(r.state))
      && r.agg == multiset{} && r.done == map[] && !r.barrier.Broadcasting?
      && (!IsTerminal(r.state) ==> r.checks == 0 && r.finals == multiset{} && r.stops == 0)
      && (r.state.Pending? && r.lost != {} ==> r.failure.Some? || r.sweep.Some?))
    // After it.
    && (Committed(r) ==>
      && !r.state.Pending? && r.failure.None? && AllReady(r.phases)
      && (r.barrier.Broadcasting? || r.barrier.Ended?)
      && (!IsTerminal(r.state) && AllReported(r.roster, r.done, r.lost) ==> CompletionOwed(r)))
  }

  ghost predicate ReadinessKept(phases: map<AgentId, PrepPhase>, phases': map<AgentId, PrepPhase>) {
    forall a :: a in phases && phases[a].Ready? ==> a in phases' && phases'[a].Ready?
  }

  ghost predicate ReportsKept(done: map<AgentId, EndKind>, done': map<AgentId, EndKind>) {
    forall a :: a in done ==> a in done'
  }

  /** How a run may change, however many steps it takes. */
  ghost predicate Evolves(r: Run, r': Run) {
    && r'.roster == r.roster && r'.onLoss == r.onLoss && r'.submitInc == r.submitInc
    && (Committed(r) ==> r'.startAt == r.startAt)
    && (Doomed(r) ==> Doomed(r'))
    && (IsTerminal(r.state) ==>
      && r'.state == r.state && r'.summary == r.summary && r'.contributing == r.contributing && r'.agg == r.agg)
    && (!r.state.Pending? ==> !r'.state.Pending?)
    && ReadinessKept(r.phases, r'.phases)
    && ReportsKept(r.done, r'.done)
  }

  // ---------------------------------------------------------------------------- steps

  datatype RunStep =
    | OnPrepFailure(verdict: RunState)
    | OnReady(agent: AgentId, index: nat)
    | OnStarted
    | OnMetrics(agent: AgentId, delta: int)
    | OnEnded(agent: AgentId, kind: EndKind)
    | OnCheck
    | OnFinalize(verdict: RunState)
    | OnSweepSelect(expired: set<AgentId>)
    | OnSweepMark(agent: AgentId)
    | OnSweepSettle
    | OnRestart(agent: AgentId)
    | OnResume(agent: AgentId)
    | OnPoll(at: int)
    | OnTimeout
    | OnLeave
    | OnFail
    | OnUserStop
    | OnStopping

  /** When a task is in a position to take the step; evidence of execution needs a committed start. */
  predicate Enabled(r: Run, step: RunStep) {
    match step
    case OnPrepFailure(v) => IsTerminal(v)
    case OnReady(_, _) => true
    case OnStarted => Committed(r)
    case OnMetrics(_, _) => Committed(r)
    case OnEnded(_, _) => Committed(r)
    case OnCheck => r.checks > 0
    case OnFinalize(v) => v in r.finals
    case OnSweepSelect(_) => true
    case OnSweepMark(a) => r.sweep.Some? && a in r.sweep.value
    case OnSweepSettle => r.sweep == Some({})
    case OnRestart(_) => true
    case OnResume(_) => true
    case OnPoll(_) => r.barrier.Waiting?
    case OnTimeout => r.barrier.Waiting?
    case OnLeave => r.barrier.Waiting? || r.barrier.Broadcasting?
    case OnFail => r.barrier.Failing?
    case OnUserStop => true
    case OnStopping => r.stops > 0
  }

  function Apply(r: Run, step: RunStep): Run
    requires Enabled(r, step)
  {
    match step
    case OnPrepFailure(v) => RecordPrepFailure(r, v)
    case OnReady(a, i) => AssignmentReady(r, a, i)
    case OnStarted => AgentStarted(r)
    case OnMetrics(a, d) => MergeDelta(r, a, d)
    case OnEnded(a, k) => AgentEnded(r, a, k)
    case OnCheck => CheckCompletion(r)
    case OnFinalize(v) => Finalize(r, v)
    case OnSweepSelect(ids) => SweepSelect(r, ids)
    case OnSweepMark(a) => SweepMark(r, a)
    case OnSweepSettle => SweepSettle(r)
    case OnRestart(a) => Restarted(r, a)
    case OnResume(a) => Resumed(r, a)
    case OnPoll(at) => BarrierPoll(r, at)
    case OnTimeout => BarrierTimeout(r)
    case OnLeave => BarrierLeave(r)
    case OnFail => BarrierFail(r)
    case OnUserStop => UserStop(r)
    case OnStopping => MarkStopping(r)
  }

  lemma SubmittedKeeps(roster: seq<AgentId>, onLoss: OnAgentLoss, incs: map<AgentId, nat>)
    requires roster != [] && Distinct(roster)
    ensures RunInv(Submitted(roster, onLoss, incs))
  {
  }

  lemma MergeDeltaKeeps(r: Run, a: AgentId, delta: int)
    requires RunInv(r) && Committed(r)
    ensures RunInv(MergeDelta(r, a, delta)) && Evolves(r, MergeDelta(r, a, delta))
  {
    var r' := MergeDelta(r, a, delta);
    if !IsTerminal(r.state) {
      forall b ensures b in r'.contributing <==> exists s :: s in r'.agg && s.agent == b {
        if b == a {
          assert Sample(a, delta) in r'.agg;
        } else if b in r.contributing {
          var s :| s in r.agg && s.agent == b;
          assert s in r'.agg;
        }
      }
    }
  }

  lemma RecordPrepFailureKeeps(r: Run, v: RunState)
    requires RunInv(r) && IsTerminal(v)
    ensures RunInv(RecordPrepFailure(r, v)) && Evolves(r, RecordPrepFailure(r, v))
  {
  }

  lemma UserStopKeeps(r: Run)
    requires RunInv(r)
    ensures RunInv(UserStop(r)) && Evolves(r, UserStop(r))
  {
    RecordPrepFailureKeeps(r, Aborted);
  }

  lemma AssignmentReadyKeeps(r: Run, a: AgentId, index: nat)
    requires RunInv(r)
    ensures RunInv(AssignmentReady(r, a, index)) && Evolves(r, AssignmentReady(r, a, index))
  {
    if HoldsPartition(r, a, index) {
      MarkingReady(r.roster, r.phases, a);
    }
  }

  lemma MarkingReady(roster: seq<AgentId>, phases: map<AgentId, PrepPhase>, a: AgentId)
    requires RosterInv(roster, phases) && a in roster
    ensures var phases' := phases[a := PrepPhase.Ready];
      RosterInv(roster, phases') && ReadinessKept(phases, phases') && (AllReady(phases) ==> AllReady(phases'))
  {
  }

  lemma EventsKeep(r: Run, a: AgentId, kind: EndKind)
    requires RunInv(r) && Committed(r)
    ensures AgentStarted(r) == r
    ensures RunInv(AgentEnded(r, a, kind)) && Evolves(r, AgentEnded(r, a, kind))
  {
  }

  lemma CheckKeeps(r: Run)
    requires RunInv(r) && r.checks > 0
    ensures RunInv(CheckCompletion(r)) && Evolves(r, CheckCompletion(r))
  {
    Owing(r.finals, r.failure, r.barrier, Verdict(r.done));
  }

  lemma FinalizeKeeps(r: Run, v: RunState)
    requires RunInv(r) && v in r.finals
    ensures RunInv(Finalize(r, v)) && Evolves(r, Finalize(r, v))
  {
  }

  lemma SweepSelectKeeps(r: Run, expired: set<AgentId>)
    requires RunInv(r)
    ensures RunInv(SweepSelect(r, expired)) && Evolves(r, SweepSelect(r, expired))
  {
  }

  lemma SweepMarkKeeps(r: Run, a: AgentId)
    requires RunInv(r) && r.sweep.Some? && a in r.sweep.value
    ensures RunInv(SweepMark(r, a)) && Evolves(r, SweepMark(r, a))
  {
  }

  lemma Owing(finals: multiset<RunState>, failure: Option<RunState>, barrier: Barrier, v: RunState)
    requires VerdictsInv(finals, failure, barrier) && IsTerminal(v)
    ensures VerdictsInv(finals + multiset{v}, failure, barrier) && finals + multiset{v} != multiset{}
  {
    assert v in finals + multiset{v};
  }

  /** After the start the loss policy always leaves completion owed. */
  lemma LossPolicyOwes(r: Run)
    requires VerdictsInv(r.finals, r.failure, r.barrier)
    ensures var r' := LossPolicy(r);
      && CompletionOwed(r') && VerdictsInv(r'.finals, r'.failure, r'.barrier)
      && r' == r.(checks := r'.checks, finals := r'.finals)
  {
    Owing(r.finals, r.failure, r.barrier, Failed);
  }

  lemma SweepSettleKeeps(r: Run)
    requires RunInv(r) && r.sweep == Some({})
    ensures RunInv(SweepSettle(r)) && Evolves(r, SweepSettle(r))
  {
    if !Records(r) {
      SweepPolicyKeeps(r);
    }
  }

  lemma SweepPolicyKeeps(r: Run)
    requires RunInv(r) && r.sweep == Some({}) && !Records(r)
    ensures RunInv(LossPolicy(r.(sweep := None))) && Evolves(r, LossPolicy(r.(sweep := None)))
  {
    LossPolicyOwes(r.(sweep := None));
  }

  lemma RestartedKeeps(r: Run, a: AgentId)
    requires RunInv(r)
    ensures RunInv(Restarted(r, a)) && Evolves(r, Restarted(r, a))
  {
    if !Records(r) {
      LossPolicyOwes(r.(lost := r.lost + {a}));
    }
  }

  lemma ResumedKeeps(r: Run, a: AgentId)
    requires RunInv(r)
    ensures RunInv(Resumed(r, a)) && Evolves(r, Resumed(r, a))
  {
    if AllReported(r.roster, r.done, r.lost - {a}) {
      assert AllReported(r.roster, r.done, r.lost);
    }
  }

  /** The barrier never commits a run whose completion nobody is watching. */
  lemma CommitKeeps(r: Run, at: int)
    requires RunInv(r) && r.barrier.Waiting?
    ensures RunInv(BarrierPoll(r, at)) && Evolves(r, BarrierPoll(r, at))
  {
    if AllReported(r.roster, r.done, r.lost) && !Committed(r) {
      assert r.roster[0] in r.lost;
    }
  }

  lemma BarrierKeeps(r: Run)
    requires RunInv(r)
    ensures r.barrier.Waiting? ==> RunInv(BarrierTimeout(r)) && Evolves(r, BarrierTimeout(r))
    ensures r.barrier.Waiting? || r.barrier.Broadcasting? ==> RunInv(BarrierLeave(r)) && Evolves(r, BarrierLeave(r))
    ensures r.barrier.Failing? ==> RunInv(BarrierFail(r)) && Evolves(r, BarrierFail(r))
  {
  }

  lemma StoppingKeeps(r: Run)
    requires RunInv(r) && r.stops > 0
    ensures RunInv(MarkStopping(r)) && Evolves(r, MarkStopping(r))
  {
  }

  lemma StepKeeps(r: Run, step: RunStep)
    requires RunInv(r) && Enabled(r, step)
    ensures RunInv(Apply(r, step)) && Evolves(r, Apply(r, step))
  {
    match step
    case OnPrepFailure(v) => RecordPrepFailureKeeps(r, v);
    case OnReady(a, i) => AssignmentReadyKeeps(r, a, i);
    case OnStarted => EventsKeep(r, 0, EndFailed);
    case OnMetrics(a, d) => MergeDeltaKeeps(r, a, d);
    case OnEnded(a, k) => EventsKeep(r, a, k);
    case OnCheck => CheckKeeps(r);
    case OnFinalize(v) => FinalizeKeeps(r, v);
    case OnSweepSelect(ids) => SweepSelectKeeps(r, ids);
    case OnSweepMark(a) => SweepMarkKeeps(r, a);
    case OnSweepSettle => SweepSettleKeeps(r);
    case OnRestart(a) => RestartedKeeps(r, a);
    case OnResume(a) => ResumedKeeps(r, a);
    case OnPoll(at) => CommitKeeps(r, at);
    case OnTimeout => BarrierKeeps(r);
    case OnLeave => BarrierKeeps(r);
    case OnFail => BarrierKeeps(r);
    case OnUserStop => UserStopKeeps(r);
    case OnStopping => StoppingKeeps(r);
  }
}
