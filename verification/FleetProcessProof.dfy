/** Applying an admitted message: its evidence is genuine, and every delta is accounted for exactly once. */
module FleetProcessProof {
  import opened Basics
  import L = Delivery
  import LP = DeliveryProof
  import R = RunLifecycle
  import S = AgentSlot
  import E = AgentExclusive
  import M = FleetMono
  import opened Fleet
  import opened FleetInv
  import opened FleetAgentProof
  import opened FleetControlProof

  // ------------------------------------------------------ an admitted payload was logged

  lemma {:induction false} InItsIncarnation(admitted: seq<L.Admission>, k: nat)
    requires k < |admitted|
    ensures admitted[k] in L.Of(admitted, admitted[k].inc)
  {
    var init := admitted[..|admitted| - 1];
    if k < |init| {
      InItsIncarnation(init, k);
      assert init[k] == admitted[k];
    }
  }

  lemma Logged(l: L.Link, m: Message) returns (i: nat, k: nat)
    requires L.LinkInv(l) && (m in l.unapplied || m in l.applied)
    ensures i < |l.logs| && k < |l.logs[i]| && l.logs[i][k] == m
  {
    var payloads := L.PayloadsOf(l.admitted);
    assert m in multiset(payloads);
    var n :| 0 <= n < |payloads| && payloads[n] == m;
    InItsIncarnation(l.admitted, n);
    i := l.admitted[n].inc;
    var mine := L.Of(l.admitted, i);
    k :| 0 <= k < |mine| && mine[k] == l.admitted[n];
    assert mine == L.Stamped(i, l.logs[i][..|mine|]);
  }

  lemma AdmittedOk(a: AgentId, l: L.Link, m: Message, runs: Runs)
    requires L.LinkInv(l) && LogsOk(a, l.logs, runs) && (m in l.unapplied || m in l.applied)
    ensures MsgOk(a, m, runs)
  {
    var i, k := Logged(l, m);
    assert MsgOk(a, l.logs[i][k], runs);
  }

  // ---------------------------------------------------------------- the effect on the run

  ghost predicate Consumes(run: R.Run, run': R.Run) {
    && run'.state == run.state && run'.startAt == run.startAt && run'.lost == run.lost
    && (run.failure.Some? ==> run'.failure.Some?)
    && R.ReportsKept(run.done, run'.done)
  }

  /** A run that one message has been applied to. */
  ghost predicate Applied(run: R.Run, run': R.Run) {
    R.RunInv(run') && R.Evolves(run, run') && Consumes(run, run')
  }

  lemma UntouchedOk(run: R.Run)
    requires R.RunInv(run)
    ensures Applied(run, run)
  {
    M.Reflexive(run);
  }

  lemma ReadinessOk(run: R.Run, a: AgentId, i: nat)
    requires R.RunInv(run)
    ensures Applied(run, R.AssignmentReady(run, a, i))
  {
    R.AssignmentReadyKeeps(run, a, i);
  }

  lemma FailureOk(run: R.Run)
    requires R.RunInv(run)
    ensures Applied(run, R.RecordPrepFailure(run, R.Failed))
  {
    R.RecordPrepFailureKeeps(run, R.Failed);
  }

  lemma EndedOk(run: R.Run, a: AgentId, kind: EndKind)
    requires R.RunInv(run) && R.Committed(run)
    ensures Applied(run, R.AgentEnded(run, a, kind)) && Applied(run, R.AgentStarted(run))
  {
    R.EventsKeep(run, a, kind);
    M.Reflexive(run);
  }

  lemma MetricsOk(run: R.Run, a: AgentId, d: int)
    requires R.RunInv(run) && R.Committed(run)
    ensures Applied(run, R.MergeDelta(run, a, d))
  {
    R.MergeDeltaKeeps(run, a, d);
  }

  lemma ConsumeOk(run: R.Run, a: AgentId, m: Message)
    requires R.RunInv(run)
    requires m.Started? || m.Ended? || m.Metrics? ==> R.Committed(run)
    ensures Applied(run, Consume(run, a, m))
  {
    match m
    case Ready(_, i) => ReadinessOk(run, a, i);
    case Started(_) => EndedOk(run, a, EndFailed);
    case PrepFailed(_) => FailureOk(run);
    case Ended(_, k) => EndedOk(run, a, k);
    case Metrics(_, d) => MetricsOk(run, a, d);
    case ControlAck(_) => UntouchedOk(run);
  }

  lemma Adding<T>(bag: multiset<T>, x: T, y: T)
    ensures (bag + multiset{x})[y] == bag[y] + (if x == y then 1 else 0)
  {
  }

  lemma ConsumeSamples(run: R.Run, a: AgentId, m: Message, b: AgentId, d: int)
    ensures var run' := Consume(run, a, m);
      run'.agg[R.Sample(b, d)] + run'.late[R.Sample(b, d)] ==
        run.agg[R.Sample(b, d)] + run.late[R.Sample(b, d)] + (if m == Metrics(m.run, d) && a == b then 1 else 0)
  {
    if m.Metrics? {
      Adding(run.agg, R.Sample(a, m.delta), R.Sample(b, d));
      Adding(run.late, R.Sample(a, m.delta), R.Sample(b, d));
    }
  }

  /** The ledger balances after the message is applied, for its sender and for everyone else. */
  lemma LedgerBalances(run: R.Run, r: RunId, a: AgentId, b: AgentId, m: Message, applied: multiset<Message>)
    requires LedgerOk(run, r, b, applied)
    ensures m.run == r && b != a ==> LedgerOk(Consume(run, a, m), r, b, applied)
    ensures m.run == r && b == a ==> LedgerOk(Consume(run, a, m), r, a, applied + multiset{m})
    ensures m.run != r ==> LedgerOk(run, r, b, applied + multiset{m})
  {
    var run' := Consume(run, a, m);
    forall d: int
      ensures run'.agg[R.Sample(b, d)] + run'.late[R.Sample(b, d)] ==
        applied[Metrics(r, d)] + (if m == Metrics(m.run, d) && a == b then 1 else 0)
      ensures (applied + multiset{m})[Metrics(r, d)] == applied[Metrics(r, d)] + (if m == Metrics(r, d) then 1 else 0)
    {
      ConsumeSamples(run, a, m, b, d);
      Adding(applied, m, Metrics(r, d));
    }
  }

  /** Readiness is recorded together with the report that justifies it. */
  lemma ReadyConsumed(run: R.Run, r: RunId, a: AgentId, b: AgentId, m: Message,
                      applied: multiset<Message>, applied': multiset<Message>)
    requires ReadyOk(run, r, b, applied)
    requires applied' == if b == a then applied + multiset{m} else applied
    ensures ReadyOk(run, r, b, applied')
    ensures m.run == r ==> ReadyOk(Consume(run, a, m), r, b, applied')
  {
    if b in run.phases && run.phases[b].Ready? {
      var i :| R.HoldsPartition(run, b, i) && Ready(r, i) in applied;
      assert Ready(r, i) in applied';
      assert R.HoldsPartition(Consume(run, a, m), b, i);
    } else if m.Ready? && m.run == r && a == b && R.HoldsPartition(run, b, m.partition) {
      assert m in applied';
      assert R.HoldsPartition(Consume(run, a, m), b, m.partition);
    }
  }

  lemma ConsumeReservation(r: RunId, run: R.Run, run': R.Run, a: AgentId, seat: Option<L.Seat>, act: Option<RunId>)
    requires ReservationOk(r, run, a, seat, act)
    requires run'.submitInc == run.submitInc && Consumes(run, run')
    ensures ReservationOk(r, run', a, seat, act)
  {
  }

  // ------------------------------------------------------------------------- the step

  lemma ApplyOk(a: AgentId, l: L.Link, p: S.Proc, act: Option<RunId>, runs: Runs, m: Message)
    requires AgentInv(a, l, p, act, runs) && m in l.unapplied
    ensures AgentInv(a, L.ApplyOne(l, m), p, act, runs)
  {
    LP.ApplyOneKeeps(l, m);
  }

  lemma ProcessAgent(a: AgentId, l: L.Link, p: S.Proc, act: Option<RunId>, runs: Runs, runs': Runs, m: Message, kill: bool)
    requires AgentInv(a, l, p, act, runs) && m in l.unapplied && RunsEvolve(runs, runs')
    requires ActiveOk(a, l.seat, act, runs')
    requires kill ==> IsCommitted(runs', m.run) || IsDoomed(runs', m.run)
    ensures var l1 := L.ApplyOne(l, m);
      AgentInv(a, if kill then L.SendOrder(l1, Halt(m.run)) else l1, p, act, runs')
  {
    var l1 := L.ApplyOne(l, m);
    ApplyOk(a, l, p, act, runs, m);
    M.AgentMono(a, l1, p, act, act, runs, runs');
    if kill {
      SendOk(a, l1, p, act, runs', Halt(m.run));
    }
  }

  lemma ProcessPairs(f: Fleet, g: Fleet, a: AgentId, m: Message)
    requires Domains(f) && PairsInv(f) && Domains(g) && Has(f, a)
    requires g.links.Keys == f.links.Keys && g.active == f.active
    requires m.run in f.runs && g.runs == f.runs[m.run := Consume(f.runs[m.run], a, m)]
    requires R.Evolves(f.runs[m.run], g.runs[m.run]) && Consumes(f.runs[m.run], g.runs[m.run])
    requires forall b :: b in g.links ==> g.links[b].seat == f.links[b].seat
    requires forall b :: b in g.links && b != a ==> g.links[b].applied == f.links[b].applied
    requires g.links[a].applied == f.links[a].applied + multiset{m}
    ensures PairsInv(g)
  {
    forall q, b | q in g.runs && b in g.links ensures PairInv(g, q, b) {
      assert PairInv(f, q, b);
      LedgerBalances(f.runs[q], q, a, b, m, f.links[b].applied);
      ReadyConsumed(f.runs[q], q, a, b, m, f.links[b].applied, g.links[b].applied);
      if q == m.run && b in f.runs[q].roster {
        ConsumeReservation(q, f.runs[q], g.runs[q], b, f.links[b].seat, f.active[b]);
      }
    }
  }

  /** A message about a run the controller does not know can only be a rejection or an acknowledgement. */
  lemma UnknownPairs(f: Fleet, g: Fleet, a: AgentId, m: Message)
    requires Domains(f) && PairsInv(f) && Domains(g) && Has(f, a)
    requires g.links.Keys == f.links.Keys && g.active == f.active && g.runs == f.runs && m.run !in f.runs
    requires forall b :: b in g.links ==> g.links[b].seat == f.links[b].seat
    requires forall b :: b in g.links && b != a ==> g.links[b].applied == f.links[b].applied
    requires g.links[a].applied == f.links[a].applied + multiset{m}
    ensures PairsInv(g)
  {
    forall q, b | q in g.runs && b in g.links ensures PairInv(g, q, b) {
      assert PairInv(f, q, b);
      LedgerBalances(f.runs[q], q, a, b, m, f.links[b].applied);
      ReadyConsumed(f.runs[q], q, a, b, m, f.links[b].applied, g.links[b].applied);
    }
  }

  lemma ProcessRuns(f: Fleet, a: AgentId, m: Message)
    requires Inv(f) && Has(f, a) && m in f.links[a].unapplied
    ensures MsgOk(a, m, f.runs)
    ensures m.run in f.runs ==>
      var run' := Consume(f.runs[m.run], a, m);
      && R.Evolves(f.runs[m.run], run') && Consumes(f.runs[m.run], run')
      && RunsEvolve(f.runs, f.runs[m.run := run']) && RunsInv(f.runs[m.run := run'])
  {
    TheAgent(f, a);
    AdmittedOk(a, f.links[a], m, f.runs);
    if m.run in f.runs {
      assert R.RunInv(f.runs[m.run]);
      ConsumeOk(f.runs[m.run], a, m);
      M.OneRunEvolves(f.runs, m.run, Consume(f.runs[m.run], a, m));
      RunsUpdated(f.runs, m.run, Consume(f.runs[m.run], a, m));
    }
  }

  /** Applying never settles a run, so every reservation stands. */
  lemma ActiveStands(f: Fleet, runs': Runs, r: RunId, b: AgentId)
    requires Domains(f) && AgentsInv(f) && b in f.links
    requires r in f.runs && r in runs' && runs' == f.runs[r := runs'[r]]
    requires R.Evolves(f.runs[r], runs'[r]) && runs'[r].state == f.runs[r].state
    ensures ActiveOk(b, f.links[b].seat, f.active[b], runs')
  {
    assert AgentInv(b, f.links[b], f.procs[b], f.active[b], f.runs);
    assert ActiveOk(b, f.links[b].seat, f.active[b], f.runs);
  }

  lemma ProcessSender(f: Fleet, runs': Runs, a: AgentId, m: Message, kill: bool)
    requires Domains(f) && AgentsInv(f) && Has(f, a) && m in f.links[a].unapplied
    requires RunsEvolve(f.runs, runs') && ActiveOk(a, f.links[a].seat, f.active[a], runs')
    requires kill ==> IsCommitted(runs', m.run) || IsDoomed(runs', m.run)
    ensures var l1 := L.ApplyOne(f.links[a], m);
      AgentInv(a, if kill then L.SendOrder(l1, Halt(m.run)) else l1, f.procs[a], f.active[a], runs')
  {
    assert AgentInv(a, f.links[a], f.procs[a], f.active[a], f.runs);
    ProcessAgent(a, f.links[a], f.procs[a], f.active[a], f.runs, runs', m, kill);
  }

  lemma ProcessAgents(f: Fleet, g: Fleet, a: AgentId, m: Message, kill: bool)
    requires Domains(f) && AgentsInv(f) && Domains(g) && Has(f, a) && m in f.links[a].unapplied
    requires m.run in f.runs && m.run in g.runs && g.runs == f.runs[m.run := g.runs[m.run]]
    requires R.Evolves(f.runs[m.run], g.runs[m.run]) && g.runs[m.run].state == f.runs[m.run].state
    requires RunsEvolve(f.runs, g.runs)
    requires kill ==> R.IsTerminal(f.runs[m.run].state)
    requires g.procs == f.procs && g.active == f.active && g.links.Keys == f.links.Keys
    requires g.links[a] == if kill then L.SendOrder(L.ApplyOne(f.links[a], m), Halt(m.run)) else L.ApplyOne(f.links[a], m)
    requires forall b :: b in g.links && b != a ==> g.links[b] == f.links[b]
    ensures AgentsInv(g)
  {
    forall b | b in g.links ensures ActiveOk(b, f.links[b].seat, g.active[b], g.runs) {
      ActiveStands(f, g.runs, m.run, b);
    }
    if kill {
      SettledIsSafe(f.runs[m.run], g.runs[m.run]);
    }
    ProcessSender(f, g.runs, a, m, kill);
    OneChanged(f, g, a);
  }

  /** What `Process` does to the fleet, field by field. */
  ghost predicate Processed(f: Fleet, g: Fleet, a: AgentId, m: Message, kill: bool)
    requires Has(f, a) && m in f.links[a].unapplied
  {
    && g.procs == f.procs && g.active == f.active && g.links.Keys == f.links.Keys
    && g.links[a] == (if kill then L.SendOrder(L.ApplyOne(f.links[a], m), Halt(m.run)) else L.ApplyOne(f.links[a], m))
    && (forall b :: b in g.links && b != a ==> g.links[b] == f.links[b])
    && (kill ==> Kills(f, a, m))
  }

  lemma ProcessDoes(f: Fleet, a: AgentId, m: Message, lost: bool)
    requires Has(f, a) && m in f.links[a].unapplied
    ensures Processed(f, Process(f, a, m, lost), a, m, Kills(f, a, m) && !lost)
    ensures Process(f, a, m, lost).runs ==
      if m.run in f.runs then f.runs[m.run := Consume(f.runs[m.run], a, m)] else f.runs
  {
  }

  /** The part of the effect that reservations and ledgers can see. */
  ghost predicate Accounted(f: Fleet, g: Fleet, a: AgentId, m: Message)
    requires Has(f, a)
  {
    && g.procs == f.procs && g.active == f.active && g.links.Keys == f.links.Keys
    && (forall b :: b in g.links && b in f.links ==> g.links[b].seat == f.links[b].seat && g.links[b].logs == f.links[b].logs)
    && (forall b :: b in g.links && b in f.links && b != a ==> g.links[b].applied == f.links[b].applied)
    && g.links[a].applied == f.links[a].applied + multiset{m}
  }

  lemma ProcessedAccounts(f: Fleet, g: Fleet, a: AgentId, m: Message, kill: bool)
    requires Has(f, a) && m in f.links[a].unapplied && Processed(f, g, a, m, kill)
    ensures Accounted(f, g, a, m)
  {
  }

  lemma KnownDomains(f: Fleet, g: Fleet, a: AgentId, m: Message)
    requires Domains(f) && Has(f, a) && Accounted(f, g, a, m) && m.run in f.runs
    requires g.runs.Keys == f.runs.Keys && RunsEvolve(f.runs, g.runs)
    ensures Domains(g)
  {
    DomainsEvolve(f, g);
  }

  lemma KnownPairs(f: Fleet, g: Fleet, a: AgentId, m: Message)
    requires Inv(f) && Has(f, a) && m in f.links[a].unapplied && m.run in f.runs
    requires Accounted(f, g, a, m)
    requires g.runs == f.runs[m.run := Consume(f.runs[m.run], a, m)]
    ensures Domains(g) && PairsInv(g) && RunsInv(g.runs)
  {
    ProcessRuns(f, a, m);
    KnownDomains(f, g, a, m);
    ProcessPairs(f, g, a, m);
  }

  lemma KnownAgents(f: Fleet, g: Fleet, a: AgentId, m: Message, kill: bool)
    requires Inv(f) && Has(f, a) && m in f.links[a].unapplied && m.run in f.runs
    requires Processed(f, g, a, m, kill) && Domains(g)
    requires g.runs == f.runs[m.run := Consume(f.runs[m.run], a, m)]
    ensures AgentsInv(g)
  {
    ProcessRuns(f, a, m);
    ProcessAgents(f, g, a, m, kill);
  }

  lemma UnknownSender(f: Fleet, a: AgentId, m: Message)
    requires Domains(f) && AgentsInv(f) && Has(f, a) && m in f.links[a].unapplied
    ensures MsgOk(a, m, f.runs)
    ensures AgentInv(a, L.ApplyOne(f.links[a], m), f.procs[a], f.active[a], f.runs)
  {
    assert AgentInv(a, f.links[a], f.procs[a], f.active[a], f.runs);
    AdmittedOk(a, f.links[a], m, f.runs);
    ApplyOk(a, f.links[a], f.procs[a], f.active[a], f.runs, m);
  }

  lemma UnknownRest(f: Fleet, g: Fleet, a: AgentId, m: Message)
    requires Domains(f) && PairsInv(f) && Has(f, a) && m.run !in f.runs
    requires Accounted(f, g, a, m) && g.runs == f.runs
    ensures Domains(g) && PairsInv(g)
  {
    DomainsFrame(f, g);
    UnknownPairs(f, g, a, m);
  }

  lemma UnknownAgents(f: Fleet, g: Fleet, a: AgentId, m: Message, kill: bool)
    requires Domains(f) && AgentsInv(f) && Has(f, a) && m in f.links[a].unapplied && m.run !in f.runs
    requires Processed(f, g, a, m, kill) && g.runs == f.runs && Domains(g)
    ensures AgentsInv(g)
  {
    UnknownSender(f, a, m);
    AgentsFrame(f, g, a);
  }

  lemma ProcessStep(f: Fleet, a: AgentId, m: Message, lost: bool)
    requires Inv(f) && Has(f, a) && m in f.links[a].unapplied
    ensures Inv(Process(f, a, m, lost))
  {
    var g, kill := Process(f, a, m, lost), Kills(f, a, m) && !lost;
    ProcessDoes(f, a, m, lost);
    ProcessedAccounts(f, g, a, m, kill);
    if m.run in f.runs {
      KnownPairs(f, g, a, m);
      KnownAgents(f, g, a, m, kill);
    } else {
      UnknownRest(f, g, a, m);
      UnknownAgents(f, g, a, m, kill);
    }
  }

  lemma SettledIsSafe(run: R.Run, run': R.Run)
    requires R.IsTerminal(run.state) && run'.state == run.state
    ensures R.Committed(run') || R.Doomed(run')
  {
  }
}
