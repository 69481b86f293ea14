/** Everything an agent relies on about runs survives as the runs evolve. */
module FleetMono {
  import opened Basics
  import L = Delivery
  import R = RunLifecycle
  import S = AgentSlot
  import E = AgentExclusive
  import opened FleetInv

  lemma EvidenceMono(runs: Runs, runs': Runs, r: RunId)
    requires RunsEvolve(runs, runs')
    ensures IsCommitted(runs, r) ==> IsCommitted(runs', r) && runs'[r].startAt == runs[r].startAt
    ensures IsDoomed(runs, r) ==> IsDoomed(runs', r)
    ensures IsCommitted(runs', r) ==> !IsDoomed(runs', r)
  {
  }

  lemma MsgMono(a: AgentId, m: Message, runs: Runs, runs': Runs)
    requires RunsEvolve(runs, runs') && MsgOk(a, m, runs)
    ensures MsgOk(a, m, runs')
  {
    EvidenceMono(runs, runs', m.run);
  }

  lemma OrderMono(a: AgentId, inc: nat, o: Order, runs: Runs, runs': Runs)
    requires RunsEvolve(runs, runs') && OrderOk(a, inc, o, runs)
    ensures OrderOk(a, inc, o, runs')
  {
    EvidenceMono(runs, runs', o.run);
  }

  lemma LogsMono(a: AgentId, logs: seq<seq<Message>>, runs: Runs, runs': Runs)
    requires RunsEvolve(runs, runs') && LogsOk(a, logs, runs)
    ensures LogsOk(a, logs, runs')
  {
    forall i, k | 0 <= i < |logs| && 0 <= k < |logs[i]| ensures MsgOk(a, logs[i][k], runs') {
      MsgMono(a, logs[i][k], runs, runs');
    }
  }

  lemma ConnsMono(a: AgentId, conns: seq<L.Conn>, runs: Runs, runs': Runs)
    requires RunsEvolve(runs, runs') && ConnsOk(a, conns, runs)
    ensures ConnsOk(a, conns, runs')
  {
    forall c | 0 <= c < |conns| ensures ConnOk(a, conns[c], runs') {
      assert ConnOk(a, conns[c], runs);
      var conn := conns[c];
      forall k | 0 <= k < |conn.down| && conn.down[k].Deliver? ensures OrderOk(a, conn.inc, conn.down[k].order, runs') {
        OrderMono(a, conn.inc, conn.down[k].order, runs, runs');
      }
    }
  }

  lemma QueueMono(down: seq<L.Downlink>, over: set<RunId>, runs: Runs, runs': Runs)
    requires RunsEvolve(runs, runs') && QueueOk(down, over, runs)
    ensures QueueOk(down, over, runs')
  {
    forall j | 0 <= j < |down| && Assigns(down[j]) && IsDoomed(runs, down[j].order.run)
      ensures IsDoomed(runs', down[j].order.run)
    {
      EvidenceMono(runs, runs', down[j].order.run);
    }
  }

  lemma ProcMono(a: AgentId, inc: nat, p: S.Proc, runs: Runs, runs': Runs)
    requires RunsEvolve(runs, runs') && ProcOk(a, inc, p, runs)
    ensures ProcOk(a, inc, p, runs')
  {
    forall m | m in p.outbox ensures MsgOk(a, m, runs') {
      MsgMono(a, m, runs, runs');
    }
    forall r ensures IsCommitted(runs, r) ==> IsCommitted(runs', r) && runs'[r].startAt == runs[r].startAt
      ensures IsDoomed(runs, r) ==> IsDoomed(runs', r)
    {
      EvidenceMono(runs, runs', r);
    }
  }

  lemma ExclusiveMono(a: AgentId, inc: nat, p: S.Proc, runs: Runs, runs': Runs)
    requires RunsEvolve(runs, runs') && ProcOk(a, inc, p, runs) && E.ExclusiveInv(p, DoomedRuns(runs))
    ensures E.ExclusiveInv(p, DoomedRuns(runs'))
  {
    var doomed, doomed' := DoomedRuns(runs), DoomedRuns(runs');
    forall r | r in doomed ensures r in doomed' {
      EvidenceMono(runs, runs', r);
    }
    forall t | t in p.engines && E.Started(p.engines[t].phase) ensures p.engines[t].run !in doomed' {
      EvidenceMono(runs, runs', p.engines[t].run);
    }
    if p.slot.Preparing? && p.slot.latched.Some? {
      assert S.StartSeen(p.slot.run, p.slot.latched.value) in p.starts;
      EvidenceMono(runs, runs', p.slot.run);
    }
    E.MoreDoomed(p, doomed, doomed');
  }

  lemma AgentMono(a: AgentId, l: L.Link, p: S.Proc, act: Option<RunId>, act': Option<RunId>, runs: Runs, runs': Runs)
    requires AgentInv(a, l, p, act, runs) && RunsEvolve(runs, runs')
    requires ActiveOk(a, l.seat, act', runs')
    ensures AgentInv(a, l, p, act', runs')
  {
    LogsMono(a, l.logs, runs, runs');
    ConnsMono(a, l.conns, runs, runs');
    if l.conns != [] {
      QueueMono(l.conns[|l.conns| - 1].down, p.over, runs, runs');
    }
    ProcMono(a, L.Live(l), p, runs, runs');
    ExclusiveMono(a, L.Live(l), p, runs, runs');
  }

  /** Replacing one run by what it evolves into. */
  lemma OneRunEvolves(runs: Runs, r: RunId, run: R.Run)
    requires r in runs && R.Evolves(runs[r], run)
    ensures RunsEvolve(runs, runs[r := run])
  {
    forall q | q in runs ensures R.Evolves(runs[q], runs[r := run][q]) {
      Reflexive(runs[q]);
    }
  }

  lemma NewRunEvolves(runs: Runs, r: RunId, run: R.Run)
    requires r !in runs
    ensures RunsEvolve(runs, runs[r := run])
  {
    forall q | q in runs ensures R.Evolves(runs[q], runs[r := run][q]) {
      Reflexive(runs[q]);
    }
  }

  lemma Reflexive(run: R.Run)
    ensures R.Evolves(run, run)
  {
  }
}
