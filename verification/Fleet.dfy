/**
 The whole fleet as one transition system: every agent's process and uplink, the streams in
 between, and the controller's seats, reservations and runs.

 `FleetStep` names what can happen next; tasks interleave freely at the granularity of the
 locks they hold. Registration, submission and finalization are single steps.
 */
module Fleet {
  import opened Basics
  import UplinkWindow
  import L = Delivery
  import R = RunLifecycle
  import S = AgentSlot

  datatype Fleet = Fleet(
    links: map<AgentId, L.Link>,
    procs: map<AgentId, S.Proc>,
    // The run each agent id is reserved for.
    active: map<AgentId, Option<RunId>>,
    runs: map<RunId, R.Run>)

  function Initial(agents: set<AgentId>, limits: UplinkWindow.Limits): Fleet {
    Fleet(map a | a in agents :: L.Fresh(limits),
          map a | a in agents :: S.IDLE,
          map a | a in agents :: None,
          map[])
  }

  predicate Has(f: Fleet, a: AgentId) {
    a in f.links && a in f.procs && a in f.active && f.links[a].logs != []
  }

  // --------------------------------------------------------------------- agent side

  /** A producer's message is admitted to the window while its task moves on. */
  function Enqueue(f: Fleet, a: AgentId, m: Message, size: nat, p: S.Proc): Fleet
    requires Has(f, a) && L.CanEnqueue(f.links[a], m, size)
  {
    f.(links := f.links[a := L.Enqueue(f.links[a], m, size)], procs := f.procs[a := p])
  }

  /** What a new stream's `Register` claims: the run in the slot, preparing or armed. */
  function Claim(p: S.Proc): Option<RunId> {
    if p.slot.Empty? then None else Some(p.slot.run)
  }

  function Handle(p: S.Proc, o: Order): S.Proc {
    match o
    case Assignment(r, i, n) => S.OnAssignment(p, r, i, n)
    case Start(r, at) => S.OnStart(p, r, at)
    case Halt(r) => S.OnHalt(p, r)
  }

  function ReadDown(f: Fleet, a: AgentId): Fleet
    requires Has(f, a) && L.CanRead(f.links[a])
  {
    var f1 := f.(links := f.links[a := L.Read(f.links[a])]);
    match L.Head(f.links[a])
    case UplinkAck(_) => f1
    case Deliver(o) => f1.(procs := f.procs[a := Handle(f.procs[a], o)])
  }

  // ----------------------------------------------------------------- controller side

  function Send(f: Fleet, a: AgentId, o: Order): Fleet
    requires Has(f, a)
  {
    f.(links := f.links[a := L.SendOrder(f.links[a], o)])
  }

  function IndexOf(roster: seq<AgentId>, a: AgentId): (i: nat)
    requires a in roster
    ensures i < |roster| && roster[i] == a && forall j :: 0 <= j < i ==> roster[j] != a
  {
    if roster[0] == a then 0 else 1 + IndexOf(roster[1..], a)
  }

  function AssignmentFor(r: RunId, run: R.Run, a: AgentId): Order
    requires a in run.roster
  {
    Assignment(r, IndexOf(run.roster, a), |run.roster|)
  }

  /** `replay_assignment_if_pending`: an empty slot while reserved, and readiness never reported. */
  predicate Replays(run: R.Run, a: AgentId) {
    && !R.IsTerminal(run.state)
    && a in run.phases && run.phases[a].Assigned?
    && a !in run.done && a !in run.lost && a in run.roster
  }

  /** `resume_run`'s answer to a claim. */
  function ResumeOrder(r: RunId, run: R.Run, a: AgentId): Option<Order> {
    if a !in run.roster then None
    else if R.IsTerminal(run.state) || a in run.done then Some(Halt(r))
    else if a in run.phases && run.phases[a].Assigned? then Some(AssignmentFor(r, run, a))
    else if a in run.phases && run.startAt.Some? then Some(Start(r, run.startAt.value))
    else None
  }

  predicate Restarts(f: Fleet, a: AgentId, c: nat)
    requires Has(f, a) && c < |f.links[a].conns|
  {
    f.links[a].seat.Some? && f.links[a].seat.value.inc != f.links[a].conns[c].inc
  }

  /** The order the registration's follow-up sends on the new stream, if any. */
  function FollowupOrder(f: Fleet, a: AgentId, c: nat): Option<Order>
    requires Has(f, a) && c < |f.links[a].conns|
  {
    if Restarts(f, a, c) then None
    else match f.links[a].conns[c].claim
      case Some(q) => if q in f.runs then ResumeOrder(q, f.runs[q], a) else Some(Halt(q))
      case None =>
        if f.active[a].Some? && f.active[a].value in f.runs && Replays(f.runs[f.active[a].value], a)
        then Some(AssignmentFor(f.active[a].value, f.runs[f.active[a].value], a))
        else None
  }

  /** What the follow-up does to the run it concerns. */
  function FollowupRuns(f: Fleet, a: AgentId, c: nat): map<RunId, R.Run>
    requires Has(f, a) && c < |f.links[a].conns|
  {
    if Restarts(f, a, c) then
      if f.active[a].Some? && f.active[a].value in f.runs
      then f.runs[f.active[a].value := R.Restarted(f.runs[f.active[a].value], a)]
      else f.runs
    else match f.links[a].conns[c].claim
      case Some(q) => if q in f.runs then f.runs[q := R.Resumed(f.runs[q], a)] else f.runs
      case None => f.runs
  }

  /** `register_agent` with its follow-up; `lost` drops the replayed order. */
  function Seat(f: Fleet, a: AgentId, c: nat, session: nat, lost: bool): Fleet
    requires Has(f, a) && L.CanSeat(f.links[a], c, session)
  {
    var o := FollowupOrder(f, a, c);
    var l1 := L.TakeSeat(f.links[a], c, session);
    f.(links := f.links[a := if o.Some? && !lost then L.SendOrder(l1, o.value) else l1],
       active := f.active[a := if Restarts(f, a, c) then None else f.active[a]],
       runs := FollowupRuns(f, a, c))
  }

  /** The run after one admitted message has been applied to it. */
  function Consume(run: R.Run, a: AgentId, m: Message): R.Run {
    match m
    case Ready(_, i) => R.AssignmentReady(run, a, i)
    case Started(_) => R.AgentStarted(run)
    case PrepFailed(_) => R.RecordPrepFailure(run, R.Failed)
    case Ended(_, k) => R.AgentEnded(run, a, k)
    case Metrics(_, d) => R.MergeDelta(run, a, d)
    case ControlAck(_) => run
  }

  /** Late readiness for a settled run is answered with a kill. */
  predicate Kills(f: Fleet, a: AgentId, m: Message) {
    m.Ready? && (m.run in f.runs ==> R.HoldsPartition(f.runs[m.run], a, m.partition) && R.IsTerminal(f.runs[m.run].state))
  }

  function Process(f: Fleet, a: AgentId, m: Message, lost: bool): Fleet
    requires Has(f, a) && m in f.links[a].unapplied
  {
    var l1 := L.ApplyOne(f.links[a], m);
    f.(links := f.links[a := if Kills(f, a, m) && !lost then L.SendOrder(l1, Halt(m.run)) else l1],
       runs := if m.run in f.runs then f.runs[m.run := Consume(f.runs[m.run], a, m)] else f.runs)
  }

  /** `release_reservations`: compare and clear. */
  function Released(active: map<AgentId, Option<RunId>>, r: RunId): map<AgentId, Option<RunId>> {
    map a | a in active :: if active[a] == Some(r) then None else active[a]
  }

  /** Run steps taken by the controller's own tasks. */
  predicate Internal(step: R.RunStep) {
    || step.OnCheck? || step.OnFinalize?
    || step.OnSweepSelect? || step.OnSweepMark? || step.OnSweepSettle?
    || step.OnPoll? || step.OnTimeout? || step.OnLeave? || step.OnFail?
    || step.OnUserStop? || step.OnStopping?
  }

  function Progress(f: Fleet, r: RunId, step: R.RunStep): Fleet
    requires r in f.runs && Internal(step) && R.Enabled(f.runs[r], step)
  {
    var run := R.Apply(f.runs[r], step);
    var settles := R.IsTerminal(run.state) && !R.IsTerminal(f.runs[r].state);
    f.(runs := f.runs[r := run], active := if settles then Released(f.active, r) else f.active)
  }

  /** A task that tells this run's agents to stop: the failing barrier, a user's stop, the abort policy. */
  predicate MayHalt(run: R.Run) {
    run.barrier.Failing? || run.stops > 0 || (run.onLoss.Abort? && R.Failed in run.finals)
  }

  ghost predicate Eligible(f: Fleet, r: RunId, chosen: seq<AgentId>) {
    && r !in f.runs && chosen != []
    && (forall i, j :: 0 <= i < j < |chosen| ==> chosen[i] < chosen[j])
    && (forall i :: 0 <= i < |chosen| ==>
      Has(f, chosen[i]) && f.links[chosen[i]].seat.Some? && f.active[chosen[i]].None?)
  }

  /** Reserve the chosen agents in id order, create the run and send every Assignment. */
  ghost function Submit(f: Fleet, r: RunId, chosen: seq<AgentId>, onLoss: R.OnAgentLoss): Fleet
    requires Eligible(f, r, chosen)
  {
    var incs := map a | a in f.links && a in chosen && f.links[a].seat.Some? :: f.links[a].seat.value.inc;
    var run := R.Submitted(chosen, onLoss, incs);
    f.(links := map a | a in f.links ::
         if a in chosen then L.SendOrder(f.links[a], AssignmentFor(r, run, a)) else f.links[a],
       active := map a | a in f.active :: if a in chosen then Some(r) else f.active[a],
       runs := f.runs[r := run])
  }

  // --------------------------------------------------------------------------- steps

  datatype FleetStep =
    // Agent processes and their streams.
    | AgentTask(agent: AgentId, task: nat, fails: bool)
    | AgentReport(agent: AgentId, msg: Message, size: nat)
    | EngineBegin(agent: AgentId, task: nat, size: nat)
    | EngineEmit(agent: AgentId, task: nat, delta: int, size: nat)
    | EngineEnd(agent: AgentId, task: nat, clean: bool)
    | EngineReport(agent: AgentId, task: nat, kind: EndKind, size: nat)
    | EngineClear(agent: AgentId, task: nat)
    | AgentCrash(agent: AgentId)
    | AgentDial(agent: AgentId)
    | AgentAttach(agent: AgentId)
    | AgentLose(agent: AgentId)
    | AgentWrite(agent: AgentId)
    | AgentBeat(agent: AgentId)
    | AgentRead(agent: AgentId)
    // The controller.
    | CtlSeat(agent: AgentId, conn: nat, session: nat, lost: bool)
    | CtlReceive(agent: AgentId, conn: nat, lost: bool)
    | CtlProcess(agent: AgentId, msg: Message, lost: bool)
    | CtlProgress(run: RunId, step: R.RunStep)
    | CtlStart(run: RunId, agent: AgentId)
    | CtlHalt(run: RunId, agent: AgentId)
    | CtlSubmit(run: RunId, chosen: seq<AgentId>, onLoss: R.OnAgentLoss)

  predicate InPhase(f: Fleet, a: AgentId, t: nat) {
    Has(f, a) && t in f.procs[a].engines
  }

  predicate IsAgentStep(step: FleetStep) {
    || step.AgentTask? || step.AgentReport? || step.EngineBegin? || step.EngineEmit?
    || step.EngineEnd? || step.EngineReport? || step.EngineClear?
  }

  predicate IsStreamStep(step: FleetStep) {
    || step.AgentCrash? || step.AgentDial? || step.AgentAttach? || step.AgentLose?
    || step.AgentWrite? || step.AgentBeat? || step.AgentRead? || step.CtlReceive?
  }

  predicate AgentEnabled(f: Fleet, step: FleetStep)
    requires IsAgentStep(step)
  {
    match step
    case AgentTask(a, t, _) => Has(f, a) && t in f.procs[a].preps
    case AgentReport(a, m, size) => Has(f, a) && m in f.procs[a].outbox && L.CanEnqueue(f.links[a], m, size)
    case EngineBegin(a, t, size) =>
      && InPhase(f, a, t) && f.procs[a].engines[t].phase.Sent?
      && L.CanEnqueue(f.links[a], Started(f.procs[a].engines[t].run), size)
    case EngineEmit(a, t, d, size) =>
      && InPhase(f, a, t) && (f.procs[a].engines[t].phase.Running? || f.procs[a].engines[t].phase.Over?)
      && L.CanEnqueue(f.links[a], Metrics(f.procs[a].engines[t].run, d), size)
    case EngineEnd(a, t, _) => InPhase(f, a, t) && f.procs[a].engines[t].phase.Running?
    case EngineReport(a, t, k, size) =>
      && InPhase(f, a, t) && f.procs[a].engines[t].phase.Over?
      && L.CanEnqueue(f.links[a], Ended(f.procs[a].engines[t].run, k), size)
    case EngineClear(a, t) => Has(f, a) && S.CanClear(f.procs[a], t)
  }

  predicate StreamEnabled(f: Fleet, step: FleetStep)
    requires IsStreamStep(step)
  {
    match step
    case AgentCrash(a) => Has(f, a)
    case AgentDial(a) => Has(f, a)
    case AgentAttach(a) => Has(f, a) && L.CanAttach(f.links[a])
    case AgentLose(a) => Has(f, a)
    case AgentWrite(a) => Has(f, a) && L.CanSend(f.links[a])
    case AgentBeat(a) => Has(f, a) && L.OnStream(f.links[a])
    case AgentRead(a) => Has(f, a) && L.CanRead(f.links[a])
    case CtlReceive(a, c, _) => Has(f, a) && L.CanReceive(f.links[a], c)
  }

  ghost predicate ControlEnabled(f: Fleet, step: FleetStep)
    requires !IsAgentStep(step) && !IsStreamStep(step)
  {
    match step
    case CtlSeat(a, c, session, _) => Has(f, a) && L.CanSeat(f.links[a], c, session)
    case CtlProcess(a, m, _) => Has(f, a) && m in f.links[a].unapplied
    case CtlProgress(r, step) => r in f.runs && Internal(step) && R.Enabled(f.runs[r], step)
    case CtlStart(r, a) =>
      && r in f.runs && Has(f, a) && a in f.runs[r].roster
      && f.runs[r].barrier.Broadcasting? && f.runs[r].startAt.Some?
    case CtlHalt(r, a) => r in f.runs && Has(f, a) && a in f.runs[r].roster && MayHalt(f.runs[r])
    case CtlSubmit(r, chosen, _) => Eligible(f, r, chosen)
  }

  ghost predicate Enabled(f: Fleet, step: FleetStep) {
    if IsAgentStep(step) then AgentEnabled(f, step)
    else if IsStreamStep(step) then StreamEnabled(f, step)
    else ControlEnabled(f, step)
  }

  function AgentNext(f: Fleet, step: FleetStep): Fleet
    requires IsAgentStep(step) && AgentEnabled(f, step)
  {
    match step
    case AgentTask(a, t, fails) =>
      f.(procs := f.procs[a := if fails then S.PrepFails(f.procs[a], t) else S.PrepDone(f.procs[a], t)])
    case AgentReport(a, m, size) =>
      Enqueue(f, a, m, size, f.procs[a].(outbox := f.procs[a].outbox - multiset{m}))
    case EngineBegin(a, t, size) =>
      Enqueue(f, a, Started(f.procs[a].engines[t].run), size, S.Begins(f.procs[a], t))
    case EngineEmit(a, t, d, size) =>
      Enqueue(f, a, Metrics(f.procs[a].engines[t].run, d), size, f.procs[a])
    case EngineEnd(a, t, clean) => f.(procs := f.procs[a := S.Ends(f.procs[a], t, clean)])
    case EngineReport(a, t, k, size) =>
      Enqueue(f, a, Ended(f.procs[a].engines[t].run, k), size, S.Reports(f.procs[a], t))
    case EngineClear(a, t) => f.(procs := f.procs[a := S.Clears(f.procs[a], t)])
  }

  function StreamNext(f: Fleet, step: FleetStep): Fleet
    requires IsStreamStep(step) && StreamEnabled(f, step)
  {
    match step
    case AgentCrash(a) => f.(links := f.links[a := L.Restart(f.links[a])], procs := f.procs[a := S.IDLE])
    case AgentDial(a) => f.(links := f.links[a := L.Open(f.links[a], Claim(f.procs[a]))])
    case AgentAttach(a) => f.(links := f.links[a := L.Attach(f.links[a])])
    case AgentLose(a) => f.(links := f.links[a := L.Detach(f.links[a])])
    case AgentWrite(a) => f.(links := f.links[a := L.Send(f.links[a])])
    case AgentBeat(a) => f.(links := f.links[a := L.Heartbeat(f.links[a])])
    case AgentRead(a) => ReadDown(f, a)
    case CtlReceive(a, c, lost) => f.(links := f.links[a := L.Receive(f.links[a], c, lost)])
  }

  ghost function ControlNext(f: Fleet, step: FleetStep): Fleet
    requires !IsAgentStep(step) && !IsStreamStep(step) && ControlEnabled(f, step)
  {
    match step
    case CtlSeat(a, c, session, lost) => Seat(f, a, c, session, lost)
    case CtlProcess(a, m, lost) => Process(f, a, m, lost)
    case CtlProgress(r, step) => Progress(f, r, step)
    case CtlStart(r, a) => Send(f, a, Start(r, f.runs[r].startAt.value))
    case CtlHalt(r, a) => Send(f, a, Halt(r))
    case CtlSubmit(r, chosen, onLoss) => Submit(f, r, chosen, onLoss)
  }

  ghost function Next(f: Fleet, step: FleetStep): Fleet
    requires Enabled(f, step)
  {
    if IsAgentStep(step) then AgentNext(f, step)
    else if IsStreamStep(step) then StreamNext(f, step)
    else ControlNext(f, step)
  }

  /** The fleet after a schedule; a step that is not enabled is skipped. */
  ghost function After(f: Fleet, steps: seq<FleetStep>): Fleet {
    if steps == [] then f
    else
      var g := After(f, steps[..|steps| - 1]);
      if Enabled(g, steps[|steps| - 1]) then Next(g, steps[|steps| - 1]) else g
  }
}
