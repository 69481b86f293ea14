/** Steps of the controller's own tasks, and of applying admitted messages, keep the fleet's invariant. */
module FleetControlProof {
  import opened Basics
  import L = Delivery
  import LP = DeliveryProof
  import R = RunLifecycle
  import S = AgentSlot
  import E = AgentExclusive
  import M = FleetMono
  import opened Fleet
  import opened FleetInv
  import opened FleetAgentProof

  // ------------------------------------------------------------------- sending orders

  /** A run whose Assignment may still be sent: not committed. */
  predicate Sendable(o: Order, runs: Runs) {
    o.Assignment? ==> o.run in runs && !R.Committed(runs[o.run])
  }

  lemma QueuePush(a: AgentId, inc: nat, down: seq<L.Downlink>, p: S.Proc, runs: Runs, o: Order)
    requires QueueOk(down, p.over, runs) && Sendable(o, runs)
    requires forall k :: 0 <= k < |down| && down[k].Deliver? ==> OrderOk(a, inc, down[k].order, runs)
    requires forall r :: r in p.over ==> IsCommitted(runs, r) || IsDoomed(runs, r)
    ensures QueueOk(down + [L.Deliver(o)], p.over, runs)
  {
    var later := down + [L.Deliver(o)];
    forall i, j | 0 <= i < j < |later| && Assigns(later[j]) && Concludes(later[i], later[j].order.run)
      ensures IsDoomed(runs, later[j].order.run)
    {
      if j == |down| {
        assert OrderOk(a, inc, down[i].order, runs);
      }
    }
  }

  lemma SendConns(a: AgentId, l: L.Link, p: S.Proc, runs: Runs, o: Order)
    requires L.LinkInv(l) && ConnsOk(a, l.conns, runs) && LatestQueueOk(l.conns, p.over, runs)
    requires forall r :: r in p.over ==> IsCommitted(runs, r) || IsDoomed(runs, r)
    requires l.seat.Some? ==> OrderOk(a, l.seat.value.inc, o, runs)
    requires Sendable(o, runs)
    ensures ConnsOk(a, L.SendOrder(l, o).conns, runs) && LatestQueueOk(L.SendOrder(l, o).conns, p.over, runs)
  {
    var conns := L.SendOrder(l, o).conns;
    if l.seat.Some? {
      var c := l.seat.value.conn;
      forall d | 0 <= d < |conns| ensures ConnOk(a, conns[d], runs) {
        assert ConnOk(a, l.conns[d], runs);
      }
      if c == |conns| - 1 {
        assert ConnOk(a, l.conns[c], runs);
        QueuePush(a, l.conns[c].inc, l.conns[c].down, p, runs, o);
      }
    }
  }

  lemma SendOk(a: AgentId, l: L.Link, p: S.Proc, act: Option<RunId>, runs: Runs, o: Order)
    requires AgentInv(a, l, p, act, runs) && Sendable(o, runs)
    requires l.seat.Some? ==> OrderOk(a, l.seat.value.inc, o, runs)
    ensures AgentInv(a, L.SendOrder(l, o), p, act, runs)
    ensures L.SendOrder(l, o).seat == l.seat && L.SendOrder(l, o).applied == l.applied
  {
    LP.SendOrderKeeps(l, o);
    SendConns(a, l, p, runs, o);
  }

  lemma SendStep(f: Fleet, a: AgentId, o: Order)
    requires Inv(f) && Has(f, a) && Sendable(o, f.runs)
    requires f.links[a].seat.Some? ==> OrderOk(a, f.links[a].seat.value.inc, o, f.runs)
    ensures Inv(Send(f, a, o))
  {
    TheAgent(f, a);
    SendOk(a, f.links[a], f.procs[a], f.active[a], f.runs, o);
    OneAgent(f, a, L.SendOrder(f.links[a], o), f.procs[a]);
    Unchanged(f.procs, a);
  }

  lemma StartStep(f: Fleet, r: RunId, a: AgentId)
    requires Inv(f) && Has(f, a) && r in f.runs && f.runs[r].startAt.Some?
    ensures Inv(Send(f, a, Start(r, f.runs[r].startAt.value)))
  {
    SendStep(f, a, Start(r, f.runs[r].startAt.value));
  }

  /** Every task that sends a Halt does so for a run that is committed or can no longer start. */
  lemma MayHaltIsSafe(run: R.Run)
    requires R.RunInv(run) && MayHalt(run)
    ensures R.Committed(run) || R.Doomed(run)
  {
  }

  lemma HaltStep(f: Fleet, r: RunId, a: AgentId)
    requires Inv(f) && Has(f, a) && r in f.runs && MayHalt(f.runs[r])
    ensures Inv(Send(f, a, Halt(r)))
  {
    assert R.RunInv(f.runs[r]);
    MayHaltIsSafe(f.runs[r]);
    SendStep(f, a, Halt(r));
  }

  // --------------------------------------------------------------------- changing runs

  /** Agents outside `changed` only see their runs evolve. */
  lemma OthersMono(f: Fleet, g: Fleet, changed: set<AgentId>)
    requires Domains(f) && AgentsInv(f) && Domains(g) && RunsEvolve(f.runs, g.runs)
    requires g.links.Keys == f.links.Keys
    requires forall b :: b in g.links && b !in changed ==>
      g.links[b] == f.links[b] && g.procs[b] == f.procs[b] && ActiveOk(b, g.links[b].seat, g.active[b], g.runs)
    requires forall b :: b in g.links && b in changed ==>
      AgentInv(b, g.links[b], g.procs[b], g.active[b], g.runs)
    ensures AgentsInv(g)
  {
    forall b | b in g.links ensures AgentInv(b, g.links[b], g.procs[b], g.active[b], g.runs) {
      if b !in changed {
        assert AgentInv(b, f.links[b], f.procs[b], f.active[b], f.runs);
        M.AgentMono(b, f.links[b], f.procs[b], f.active[b], g.active[b], f.runs, g.runs);
      }
    }
  }

  lemma OneChanged(f: Fleet, g: Fleet, a: AgentId)
    requires Domains(f) && AgentsInv(f) && Domains(g) && RunsEvolve(f.runs, g.runs) && a in f.links
    requires g.links.Keys == f.links.Keys
    requires forall b :: b in g.links && b != a ==>
      g.links[b] == f.links[b] && g.procs[b] == f.procs[b] && ActiveOk(b, g.links[b].seat, g.active[b], g.runs)
    requires AgentInv(a, g.links[a], g.procs[a], g.active[a], g.runs)
    ensures AgentsInv(g)
  {
    forall b | b in g.links ensures AgentInv(b, g.links[b], g.procs[b], g.active[b], g.runs) {
      if b != a {
        assert AgentInv(b, f.links[b], f.procs[b], f.active[b], f.runs);
        M.AgentMono(b, f.links[b], f.procs[b], f.active[b], g.active[b], f.runs, g.runs);
      }
    }
  }

  lemma DomainsEvolve(f: Fleet, g: Fleet)
    requires Domains(f) && RunsEvolve(f.runs, g.runs) && g.runs.Keys == f.runs.Keys
    requires g.links.Keys == f.links.Keys && g.procs.Keys == f.links.Keys && g.active.Keys == f.links.Keys
    requires forall a :: a in g.links ==> g.links[a].logs != []
    ensures Domains(g)
  {
  }

  lemma RunsUpdated(runs: Runs, r: RunId, run: R.Run)
    requires RunsInv(runs) && R.RunInv(run)
    ensures RunsInv(runs[r := run])
  {
    var runs' := runs[r := run];
    forall q | q in runs' ensures R.RunInv(runs'[q]) {
      if q != r {
        assert R.RunInv(runs[q]);
      }
    }
  }

  /** What the controller's own steps leave alone. */
  ghost predicate Keeps(run: R.Run, run': R.Run) {
    && run'.agg == run.agg && run'.late == run.late && run'.phases == run.phases
    && run.lost <= run'.lost
    && (run.failure.Some? ==> run'.failure.Some?)
    && (R.Committed(run') && !R.Committed(run) ==> run.failure.None?)
  }

  lemma OwedKeepsIt(run: R.Run, checks: nat, finals: multiset<R.RunState>)
    ensures Keeps(run, run.(checks := checks, finals := finals))
  {
  }

  lemma CheckKeepsIt(run: R.Run)
    requires run.checks > 0
    ensures Keeps(run, R.CheckCompletion(run))
  {
    OwedKeepsIt(run, run.checks - 1, R.CheckCompletion(run).finals);
  }

  lemma FinalizeKeepsIt(run: R.Run, v: R.RunState)
    requires v in run.finals
    ensures Keeps(run, R.Finalize(run, v))
  {
  }

  lemma SweepKeepsIt(run: R.Run, expired: set<AgentId>, a: AgentId)
    ensures Keeps(run, R.SweepSelect(run, expired))
    ensures run.sweep.Some? && a in run.sweep.value ==> Keeps(run, R.SweepMark(run, a))
  {
  }

  lemma SettleKeepsIt(run: R.Run)
    requires run.sweep == Some({})
    ensures Keeps(run, R.SweepSettle(run))
  {
  }

  lemma PollKeepsIt(run: R.Run, at: int)
    requires run.barrier.Waiting? && run.agg == multiset{}
    ensures Keeps(run, R.BarrierPoll(run, at))
  {
  }

  lemma BarrierKeepsIt(run: R.Run)
    ensures run.barrier.Waiting? ==> Keeps(run, R.BarrierTimeout(run))
    ensures run.barrier.Waiting? || run.barrier.Broadcasting? ==> Keeps(run, R.BarrierLeave(run))
    ensures run.barrier.Failing? ==> Keeps(run, R.BarrierFail(run))
  {
  }

  lemma StopKeepsIt(run: R.Run)
    ensures Keeps(run, R.UserStop(run))
    ensures run.stops > 0 ==> Keeps(run, R.MarkStopping(run))
  {
  }

  lemma InternalKeeps(run: R.Run, step: R.RunStep)
    requires Internal(step) && R.Enabled(run, step)
    requires (!R.Committed(run) ==> run.agg == multiset{}) && (R.Committed(run) ==> !run.barrier.Waiting?)
    ensures Keeps(run, R.Apply(run, step))
  {
    match step
    case OnCheck => CheckKeepsIt(run);
    case OnFinalize(v) => FinalizeKeepsIt(run, v);
    case OnSweepSelect(ids) => SweepKeepsIt(run, ids, 0);
    case OnSweepMark(a) => SweepKeepsIt(run, {}, a);
    case OnSweepSettle => SettleKeepsIt(run);
    case OnPoll(at) => PollKeepsIt(run, at);
    case OnTimeout => BarrierKeepsIt(run);
    case OnLeave => BarrierKeepsIt(run);
    case OnFail => BarrierKeepsIt(run);
    case OnUserStop => StopKeepsIt(run);
    case OnStopping => StopKeepsIt(run);
  }

  lemma PairsProgress(f: Fleet, g: Fleet, r: RunId)
    requires Domains(f) && PairsInv(f) && Domains(g) && r in f.runs && r in g.runs
    requires g.links == f.links && g.runs == f.runs[r := g.runs[r]]
    requires R.Evolves(f.runs[r], g.runs[r]) && Keeps(f.runs[r], g.runs[r])
    requires g.active.Keys == f.active.Keys
    requires forall b :: b in f.active ==>
      g.active[b] == f.active[b] || (f.active[b] == Some(r) && R.IsTerminal(g.runs[r].state))
    ensures PairsInv(g)
  {
    forall q, b | q in g.runs && b in g.links ensures PairInv(g, q, b) {
      assert PairInv(f, q, b);
      ReadyStands(f.runs[q], g.runs[q], q, b, f.links[b].applied);
    }
  }

  lemma ReadyStands(run: R.Run, run': R.Run, r: RunId, b: AgentId, applied: multiset<Message>)
    requires ReadyOk(run, r, b, applied) && run'.phases == run.phases && run'.roster == run.roster
    ensures ReadyOk(run', r, b, applied)
  {
    if b in run'.phases && run'.phases[b].Ready? {
      var i :| R.HoldsPartition(run, b, i) && Ready(r, i) in applied;
      assert R.HoldsPartition(run', b, i);
    }
  }

  lemma ReleaseOk(f: Fleet, g: Fleet, r: RunId, b: AgentId)
    requires Domains(f) && AgentsInv(f) && b in f.links && r in f.runs && r in g.runs
    requires g.runs == f.runs[r := g.runs[r]] && R.Evolves(f.runs[r], g.runs[r]) && b in g.active
    requires g.active[b] ==
      (if R.IsTerminal(g.runs[r].state) && !R.IsTerminal(f.runs[r].state) && f.active[b] == Some(r) then None else f.active[b])
    ensures ActiveOk(b, f.links[b].seat, g.active[b], g.runs)
  {
    assert AgentInv(b, f.links[b], f.procs[b], f.active[b], f.runs);
    assert ActiveOk(b, f.links[b].seat, f.active[b], f.runs);
  }

  lemma ProgressRuns(f: Fleet, r: RunId, step: R.RunStep)
    requires Inv(f) && r in f.runs && Internal(step) && R.Enabled(f.runs[r], step)
    ensures var run' := R.Apply(f.runs[r], step);
      && R.Evolves(f.runs[r], run') && Keeps(f.runs[r], run')
      && RunsEvolve(f.runs, f.runs[r := run']) && RunsInv(f.runs[r := run'])
  {
    var run' := R.Apply(f.runs[r], step);
    assert R.RunInv(f.runs[r]);
    R.StepKeeps(f.runs[r], step);
    InternalKeeps(f.runs[r], step);
    M.OneRunEvolves(f.runs, r, run');
    RunsUpdated(f.runs, r, run');
  }

  /** One run moved on by itself; if that settled it, its agents are free. */
  lemma RunMoves(f: Fleet, g: Fleet, r: RunId, run': R.Run)
    requires Inv(f) && r in f.runs
    requires R.Evolves(f.runs[r], run') && Keeps(f.runs[r], run')
    requires RunsEvolve(f.runs, f.runs[r := run']) && RunsInv(f.runs[r := run'])
    requires g == f.(runs := f.runs[r := run'],
      active := if R.IsTerminal(run'.state) && !R.IsTerminal(f.runs[r].state) then Released(f.active, r) else f.active)
    ensures Inv(g)
  {
    DomainsEvolve(f, g);
    PairsProgress(f, g, r);
    forall b | b in g.links ensures ActiveOk(b, g.links[b].seat, g.active[b], g.runs) {
      ReleaseOk(f, g, r, b);
    }
    OthersMono(f, g, {});
  }

  lemma ProgressStep(f: Fleet, r: RunId, step: R.RunStep)
    requires Inv(f) && r in f.runs && Internal(step) && R.Enabled(f.runs[r], step)
    ensures Inv(Progress(f, r, step))
  {
    var run' := R.Apply(f.runs[r], step);
    ProgressRuns(f, r, step);
    RunMoves(f, Progress(f, r, step), r, run');
  }
}
