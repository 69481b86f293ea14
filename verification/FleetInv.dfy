/** The inductive invariant of the composed fleet. */
module FleetInv {
  import opened Basics
  import L = Delivery
  import R = RunLifecycle
  import S = AgentSlot
  import E = AgentExclusive
  import opened Fleet

  type Runs = map<RunId, R.Run>

  ghost function DoomedRuns(runs: Runs): set<RunId> {
    set r | r in runs && R.Doomed(runs[r])
  }

  predicate IsCommitted(runs: Runs, r: RunId) {
    r in runs && R.Committed(runs[r])
  }

  predicate IsDoomed(runs: Runs, r: RunId) {
    r in runs && R.Doomed(runs[r])
  }

  // --------------------------------------------------- evidence a message or order carries

  /** Execution evidence exists only for committed runs, readiness only for one's own partition. */
  predicate MsgOk(a: AgentId, m: Message, runs: Runs) {
    match m
    case Ready(r, i) => r in runs && R.HoldsPartition(runs[r], a, i)
    case Started(r) => IsCommitted(runs, r)
    case Ended(r, _) => IsCommitted(runs, r)
    case Metrics(r, _) => IsCommitted(runs, r)
    case PrepFailed(_) => true
    case ControlAck(_) => true
  }

  /** This incarnation of `a` is the one `r` was submitted to, at this partition. */
  predicate PartitionOk(a: AgentId, inc: nat, runs: Runs, r: RunId, index: nat, count: nat) {
    && r in runs && R.HoldsPartition(runs[r], a, index) && count == |runs[r].roster|
    && a in runs[r].submitInc && runs[r].submitInc[a] == inc
  }

  predicate OrderOk(a: AgentId, inc: nat, o: Order, runs: Runs) {
    match o
    case Assignment(r, i, n) => PartitionOk(a, inc, runs, r, i, n)
    case Start(r, at) => r in runs && runs[r].startAt == Some(at)
    case Halt(r) => IsCommitted(runs, r) || IsDoomed(runs, r)
  }

  predicate ClaimOk(a: AgentId, inc: nat, claim: Option<RunId>, runs: Runs) {
    claim.Some? ==>
      && claim.value in runs && a in runs[claim.value].roster
      && a in runs[claim.value].submitInc && runs[claim.value].submitInc[a] == inc
  }

  ghost predicate LogsOk(a: AgentId, logs: seq<seq<Message>>, runs: Runs) {
    forall i, k :: 0 <= i < |logs| && 0 <= k < |logs[i]| ==> MsgOk(a, logs[i][k], runs)
  }

  ghost predicate ConnOk(a: AgentId, conn: L.Conn, runs: Runs) {
    && ClaimOk(a, conn.inc, conn.claim, runs)
    && (forall k :: 0 <= k < |conn.down| && conn.down[k].Deliver? ==> OrderOk(a, conn.inc, conn.down[k].order, runs))
  }

  ghost predicate ConnsOk(a: AgentId, conns: seq<L.Conn>, runs: Runs) {
    forall c :: 0 <= c < |conns| ==> ConnOk(a, conns[c], runs)
  }

  predicate Concludes(d: L.Downlink, r: RunId) {
    d.Deliver? && (d.order.Start? || d.order.Halt?) && d.order.run == r
  }

  predicate Assigns(d: L.Downlink) {
    d.Deliver? && d.order.Assignment?
  }

  /** No stream hands out a run's Assignment behind its Start or Halt, unless the run is doomed. */
  ghost predicate QueueOk(down: seq<L.Downlink>, over: set<RunId>, runs: Runs) {
    && (forall i, j :: 0 <= i < j < |down| && Assigns(down[j]) && Concludes(down[i], down[j].order.run) ==>
      IsDoomed(runs, down[j].order.run))
    && (forall j :: 0 <= j < |down| && Assigns(down[j]) && down[j].order.run in over ==>
      IsDoomed(runs, down[j].order.run))
  }

  ghost predicate LatestQueueOk(conns: seq<L.Conn>, over: set<RunId>, runs: Runs) {
    conns != [] ==> QueueOk(conns[|conns| - 1].down, over, runs)
  }

  // ------------------------------------------------------------------------ the process

  ghost predicate ProcOk(a: AgentId, inc: nat, p: S.Proc, runs: Runs) {
    && (forall m :: m in p.outbox ==> MsgOk(a, m, runs))
    && (forall t :: t in p.preps ==> PartitionOk(a, inc, runs, p.preps[t].run, p.preps[t].index, p.preps[t].count))
    && (forall t :: t in p.engines ==>
      && PartitionOk(a, inc, runs, p.engines[t].run, p.engines[t].index, p.engines[t].count)
      && (!p.engines[t].phase.Waiting? && !p.engines[t].phase.Dropped? ==> IsCommitted(runs, p.engines[t].run)))
    && (forall s :: s in p.starts ==> s.run in runs && runs[s.run].startAt == Some(s.at))
    && (forall r :: r in p.over ==> IsCommitted(runs, r) || IsDoomed(runs, r))
  }

  // -------------------------------------------------------------------- reservations

  /** A reservation names an unsettled run this incarnation was submitted to. */
  predicate ActiveOk(a: AgentId, seat: Option<L.Seat>, act: Option<RunId>, runs: Runs) {
    act.Some? ==>
      && act.value in runs && a in runs[act.value].roster && !R.IsTerminal(runs[act.value].state)
      && seat.Some? && a in runs[act.value].submitInc && runs[act.value].submitInc[a] == seat.value.inc
  }

  /** An unsettled run keeps each participant reserved until that process restarts, which settles its part. */
  predicate ReservationOk(r: RunId, run: R.Run, a: AgentId, seat: Option<L.Seat>, act: Option<RunId>) {
    !R.IsTerminal(run.state) ==>
      && seat.Some? && a in run.submitInc && run.submitInc[a] <= seat.value.inc
      && (run.submitInc[a] == seat.value.inc ==> act == Some(r))
      && (run.submitInc[a] != seat.value.inc ==>
        if R.Committed(run) then a in run.done || a in run.lost else run.failure.Some?)
  }

  /** Every applied delta is in the aggregate or was dropped after the freeze. */
  ghost predicate LedgerOk(run: R.Run, r: RunId, a: AgentId, applied: multiset<Message>) {
    forall d: int :: run.agg[R.Sample(a, d)] + run.late[R.Sample(a, d)] == applied[Metrics(r, d)]
  }

  /** A participant counts as ready only once its own readiness report was applied. */
  ghost predicate ReadyOk(run: R.Run, r: RunId, a: AgentId, applied: multiset<Message>) {
    a in run.phases && run.phases[a].Ready? ==>
      exists i :: R.HoldsPartition(run, a, i) && Ready(r, i) in applied
  }

  // ------------------------------------------------------------------------ everything

  ghost predicate AgentInv(a: AgentId, l: L.Link, p: S.Proc, act: Option<RunId>, runs: Runs) {
    && L.LinkInv(l)
    && LogsOk(a, l.logs, runs)
    && ConnsOk(a, l.conns, runs)
    && LatestQueueOk(l.conns, p.over, runs)
    && ProcOk(a, L.Live(l), p, runs)
    && E.ExclusiveInv(p, DoomedRuns(runs))
    && ActiveOk(a, l.seat, act, runs)
  }

  ghost predicate PairInv(f: Fleet, r: RunId, a: AgentId)
    requires r in f.runs && Has(f, a)
  {
    && (a in f.runs[r].roster ==> ReservationOk(r, f.runs[r], a, f.links[a].seat, f.active[a]))
    && LedgerOk(f.runs[r], r, a, f.links[a].applied)
    && ReadyOk(f.runs[r], r, a, f.links[a].applied)
  }

  ghost predicate Domains(f: Fleet) {
    && f.procs.Keys == f.links.Keys && f.active.Keys == f.links.Keys
    && (forall a :: a in f.links ==> f.links[a].logs != [])
    && (forall r :: r in f.runs ==> forall i :: 0 <= i < |f.runs[r].roster| ==> f.runs[r].roster[i] in f.links)
  }

  ghost predicate AgentsInv(f: Fleet)
    requires Domains(f)
  {
    forall a {:trigger AgentInv(a, f.links[a], f.procs[a], f.active[a], f.runs)} ::
      a in f.links ==> AgentInv(a, f.links[a], f.procs[a], f.active[a], f.runs)
  }

  ghost predicate RunsInv(runs: Runs) {
    forall r {:trigger R.RunInv(runs[r])} :: r in runs ==> R.RunInv(runs[r])
  }

  ghost predicate PairsInv(f: Fleet)
    requires Domains(f)
  {
    forall r, a {:trigger PairInv(f, r, a)} :: r in f.runs && a in f.links ==> PairInv(f, r, a)
  }

  ghost predicate Inv(f: Fleet) {
    Domains(f) && AgentsInv(f) && RunsInv(f.runs) && PairsInv(f)
  }

  /** Runs only accumulate, and each evolves. */
  ghost predicate RunsEvolve(runs: Runs, runs': Runs) {
    forall r :: r in runs ==> r in runs' && R.Evolves(runs[r], runs'[r])
  }
}
