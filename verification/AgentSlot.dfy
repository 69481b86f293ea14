/**
 One agent process: the shared run slot, its detached preparation and run tasks, and the
 messages those tasks still have to enqueue.

 Handlers compare run ids, never tasks; a task may therefore meet a slot that a later
 assignment of the same run owns. `over`, `starts` and `ran` are history.
 */
module AgentSlot {
  import opened Basics

  datatype Slot =
    | Empty
    | Preparing(run: RunId, task: nat, latched: Option<int>)
    | Armed(run: RunId, task: nat)

  /** A preparation task; `cancelled` is the flag it shares with the slot entry that created it. */
  datatype Prep = Prep(run: RunId, index: nat, count: nat, cancelled: bool)

  /** A run task: parked on its start channel, its channel dropped, started, running, over, reported. */
  datatype Phase =
    | Waiting
    | Dropped
    | Sent(at: int)
    | Running(at: int)
    | Over(clean: bool)
    | Reported(clean: bool)

  datatype Engine = Engine(run: RunId, index: nat, count: nat, phase: Phase)

  datatype StartSeen = StartSeen(run: RunId, at: int)

  datatype Ran = Ran(task: nat, run: RunId, at: int)

  datatype Proc = Proc(
    slot: Slot,
    preps: map<nat, Prep>,
    engines: map<nat, Engine>,
    nextTask: nat,
    outbox: multiset<Message>,
    // Runs for which a Start or a Halt has been handled, the Starts handled, the engines run.
    over: set<RunId>,
    starts: set<StartSeen>,
    ran: seq<Ran>)

  const IDLE := Proc(Empty, map[], map[], 0, multiset{}, {}, {}, [])

  predicate Holds(slot: Slot, run: RunId) {
    !slot.Empty? && slot.run == run
  }

  /** The engine behind an armed slot has reported `RunStatus::Finished`. */
  predicate SlotFinished(p: Proc) {
    && p.slot.Armed? && p.slot.task in p.engines
    && (p.engines[p.slot.task].phase == Over(true) || p.engines[p.slot.task].phase == Reported(true))
  }

  function SetPhase(p: Proc, t: nat, phase: Phase): Proc
    requires t in p.engines
  {
    p.(engines := p.engines[t := p.engines[t].(phase := phase)])
  }

  function Post(p: Proc, m: Message): Proc {
    p.(outbox := p.outbox + multiset{m})
  }

  // ------------------------------------------------------------- controller messages

  /** `arm_assignment`: claim the slot, keep a duplicate, or reject. */
  function OnAssignment(p: Proc, run: RunId, index: nat, count: nat): Proc {
    if index >= count then Post(p, PrepFailed(run))
    else if Holds(p.slot, run) then p
    else if p.slot.Empty? || SlotFinished(p) then
      p.(slot := Preparing(run, p.nextTask, None),
         preps := p.preps[p.nextTask := Prep(run, index, count, false)],
         nextTask := p.nextTask + 1)
    else Post(p, PrepFailed(run))
  }

  function OnStart(p: Proc, run: RunId, at: int): Proc {
    var p1 := p.(over := p.over + {run}, starts := p.starts + {StartSeen(run, at)});
    match p.slot
    case Armed(r, t) =>
      if r == run && t in p.engines && p.engines[t].phase.Waiting? then SetPhase(p1, t, Sent(at)) else p1
    case Preparing(r, t, _) =>
      if r == run then p1.(slot := Preparing(r, t, Some(at))) else p1
    case Empty => p1
  }

  /** `stop`/`kill`: cancel a preparation, disarm an engine that never started, or drive a running one. */
  function OnHalt(p: Proc, run: RunId): Proc {
    var p1 := Post(p.(over := p.over + {run}), ControlAck(run));
    match p.slot
    case Preparing(r, t, _) =>
      if r != run then p1
      else if t in p.preps then p1.(slot := Empty, preps := p.preps[t := p.preps[t].(cancelled := true)])
      else p1.(slot := Empty)
    case Armed(r, t) =>
      if r == run && t in p.engines && p.engines[t].phase.Waiting?
      then SetPhase(p1, t, Dropped).(slot := Empty)
      else p1
    case Empty => p1
  }

  // ----------------------------------------------------------------- detached tasks

  /** The engine could not be built. */
  function PrepFails(p: Proc, t: nat): Proc
    requires t in p.preps
  {
    var prep := p.preps[t];
    var slot := if p.slot.Preparing? && p.slot.run == prep.run then Empty else p.slot;
    var p1 := p.(slot := slot, preps := p.preps - {t});
    if prep.cancelled then p1 else Post(p1, PrepFailed(prep.run))
  }

  /** The engine is built: arm it and report readiness, unless the slot moved on or was cancelled. */
  function PrepDone(p: Proc, t: nat): Proc
    requires t in p.preps
  {
    var prep := p.preps[t];
    var p1 := p.(preps := p.preps - {t});
    if !(p.slot.Preparing? && p.slot.run == prep.run) then p1
    else if prep.cancelled then p1.(slot := Empty)
    else
      var phase := if p.slot.latched.Some? then Sent(p.slot.latched.value) else Waiting;
      Post(p1.(slot := Armed(prep.run, t),
               engines := p.engines[t := Engine(prep.run, prep.index, prep.count, phase)]),
           Ready(prep.run, prep.index))
  }

  /** The start time has come: `started` is enqueued and the engine runs. */
  function Begins(p: Proc, t: nat): Proc
    requires t in p.engines && p.engines[t].phase.Sent?
  {
    var e := p.engines[t];
    SetPhase(p, t, Running(e.phase.at)).(ran := p.ran + [Ran(t, e.run, e.phase.at)])
  }

  function Ends(p: Proc, t: nat, clean: bool): Proc
    requires t in p.engines && p.engines[t].phase.Running?
  {
    SetPhase(p, t, Over(clean))
  }

  function Reports(p: Proc, t: nat): Proc
    requires t in p.engines && p.engines[t].phase.Over?
  {
    SetPhase(p, t, Reported(p.engines[t].phase.clean))
  }

  /** The run task leaves, clearing an armed slot that carries its run id. */
  predicate CanClear(p: Proc, t: nat) {
    t in p.engines && (p.engines[t].phase.Reported? || p.engines[t].phase.Dropped?)
  }

  function Clears(p: Proc, t: nat): Proc
    requires CanClear(p, t)
  {
    var gone := p.(engines := p.engines - {t});
    if !(p.slot.Armed? && p.slot.run == p.engines[t].run) then gone
    else
      var u := p.slot.task;
      // Dropping another engine's slot entry drops its start channel with it.
      var p1 := if u in gone.engines && gone.engines[u].phase.Waiting? then SetPhase(gone, u, Dropped) else gone;
      p1.(slot := Empty)
  }

  // ---------------------------------------------------------- invariant, any schedule

  ghost predicate TasksInv(p: Proc) {
    && (forall t :: t in p.preps ==> t < p.nextTask && t !in p.engines)
    && (forall t :: t in p.engines ==> t < p.nextTask)
    && (p.slot.Preparing? ==>
      && p.slot.task in p.preps && p.preps[p.slot.task].run == p.slot.run && !p.preps[p.slot.task].cancelled
      && (p.slot.latched.Some? ==> StartSeen(p.slot.run, p.slot.latched.value) in p.starts))
    && (p.slot.Armed? ==>
      && p.slot.task in p.engines && p.engines[p.slot.task].run == p.slot.run
      && !p.engines[p.slot.task].phase.Dropped?)
    && (forall t :: t in p.engines ==>
      && (p.engines[t].phase.Waiting? ==> p.slot == Armed(p.engines[t].run, t))
      && (p.engines[t].phase.Sent? || p.engines[t].phase.Running? ==>
        StartSeen(p.engines[t].run, p.engines[t].phase.at) in p.starts))
  }

  /** Nothing of this task has started yet. */
  predicate Unstarted(p: Proc, t: nat) {
    t in p.engines ==> p.engines[t].phase.Waiting? || p.engines[t].phase.Dropped? || p.engines[t].phase.Sent?
  }

  ghost predicate RanInv(p: Proc) {
    && (forall i :: 0 <= i < |p.ran| ==>
      && p.ran[i].task < p.nextTask
      && p.ran[i].task !in p.preps
      && StartSeen(p.ran[i].run, p.ran[i].at) in p.starts
      && (p.ran[i].task in p.engines ==> !Unstarted(p, p.ran[i].task)))
    && (forall i, j :: 0 <= i < j < |p.ran| ==> p.ran[i].task != p.ran[j].task)
  }

  ghost predicate ProcInv(p: Proc) {
    TasksInv(p) && RanInv(p)
  }

  /** A task that was cancelled while preparing or disarmed before its start, and never ran. */
  ghost predicate Dead(p: Proc, t: nat) {
    && t < p.nextTask
    && (t in p.preps ==> p.preps[t].cancelled)
    && (t in p.engines ==> p.engines[t].phase.Dropped?)
    && (forall i :: 0 <= i < |p.ran| ==> p.ran[i].task != t)
  }

  datatype ProcStep =
    | GetAssignment(run: RunId, index: nat, count: nat)
    | GetStart(run: RunId, at: int)
    | GetHalt(run: RunId)
    | TaskFails(task: nat)
    | TaskArms(task: nat)
    | TaskBegins(task: nat)
    | TaskEnds(task: nat, clean: bool)
    | TaskReports(task: nat)
    | TaskClears(task: nat)
    | Posted(msg: Message)

  function Do(p: Proc, step: ProcStep): Proc {
    match step
    case GetAssignment(r, i, n) => OnAssignment(p, r, i, n)
    case GetStart(r, at) => OnStart(p, r, at)
    case GetHalt(r) => OnHalt(p, r)
    case TaskFails(t) => if t in p.preps then PrepFails(p, t) else p
    case TaskArms(t) => if t in p.preps then PrepDone(p, t) else p
    case TaskBegins(t) => if t in p.engines && p.engines[t].phase.Sent? then Begins(p, t) else p
    case TaskEnds(t, clean) => if t in p.engines && p.engines[t].phase.Running? then Ends(p, t, clean) else p
    case TaskReports(t) => if t in p.engines && p.engines[t].phase.Over? then Reports(p, t) else p
    case TaskClears(t) => if CanClear(p, t) then Clears(p, t) else p
    case Posted(m) => p.(outbox := p.outbox - multiset{m})
  }

  function Schedule(steps: seq<ProcStep>): Proc {
    if steps == [] then IDLE else Do(Schedule(steps[..|steps| - 1]), steps[|steps| - 1])
  }
}
