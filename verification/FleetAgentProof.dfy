/** Steps taken by agent processes, their streams and the controller's inbound pumps keep the fleet's invariant. */
module FleetAgentProof {
  import opened Basics
  import L = Delivery
  import LP = DeliveryProof
  import R = RunLifecycle
  import S = AgentSlot
  import E = AgentExclusive
  import opened Fleet
  import opened FleetInv

  predicate SameSeat(s: Option<L.Seat>, s': Option<L.Seat>) {
    s.Some? == s'.Some? && (s.Some? ==> s.value.inc == s'.value.inc)
  }

  lemma Unchanged<V>(m: map<AgentId, V>, a: AgentId)
    requires a in m
    ensures m[a := m[a]] == m
  {
  }

  lemma DomainsFrame(f: Fleet, g: Fleet)
    requires Domains(f) && g.runs == f.runs
    requires g.links.Keys == f.links.Keys && g.procs.Keys == f.links.Keys && g.active.Keys == f.links.Keys
    requires forall a :: a in g.links ==> g.links[a].logs != []
    ensures Domains(g)
  {
  }

  function Replaced(f: Fleet, a: AgentId, l: L.Link, p: S.Proc): Fleet {
    f.(links := f.links[a := l], procs := f.procs[a := p])
  }

  lemma ReplacedDomains(f: Fleet, a: AgentId, l: L.Link, p: S.Proc)
    requires Domains(f) && a in f.links && l.logs != []
    ensures Domains(Replaced(f, a, l, p))
  {
    DomainsFrame(f, Replaced(f, a, l, p));
  }

  lemma ReplacedPairs(f: Fleet, a: AgentId, l: L.Link, p: S.Proc)
    requires Domains(f) && PairsInv(f) && a in f.links && l.logs != [] && Domains(Replaced(f, a, l, p))
    requires SameSeat(f.links[a].seat, l.seat) && l.applied == f.links[a].applied
    ensures PairsInv(Replaced(f, a, l, p))
  {
    PairsFrame(f, Replaced(f, a, l, p));
  }

  /** A step confined to one agent. */
  lemma OneAgent(f: Fleet, a: AgentId, l: L.Link, p: S.Proc)
    requires Inv(f) && a in f.links
    requires AgentInv(a, l, p, f.active[a], f.runs)
    requires SameSeat(f.links[a].seat, l.seat) && l.applied == f.links[a].applied
    ensures Inv(Replaced(f, a, l, p))
  {
    ReplacedDomains(f, a, l, p);
    ReplacedPairs(f, a, l, p);
    AgentsFrame(f, Replaced(f, a, l, p), a);
  }

  lemma AgentsFrame(f: Fleet, g: Fleet, a: AgentId)
    requires Domains(f) && AgentsInv(f) && Domains(g) && a in f.links
    requires g.runs == f.runs && g.links.Keys == f.links.Keys
    requires forall b :: b in f.links && b != a ==>
      g.links[b] == f.links[b] && g.procs[b] == f.procs[b] && g.active[b] == f.active[b]
    requires AgentInv(a, g.links[a], g.procs[a], g.active[a], g.runs)
    ensures AgentsInv(g)
  {
    forall b | b in g.links ensures AgentInv(b, g.links[b], g.procs[b], g.active[b], g.runs) {
      if b != a {
        assert AgentInv(b, f.links[b], f.procs[b], f.active[b], f.runs);
      }
    }
  }

  lemma PairsFrame(f: Fleet, g: Fleet)
    requires Domains(f) && PairsInv(f) && Domains(g)
    requires g.runs == f.runs && g.active == f.active && g.links.Keys == f.links.Keys
    requires forall b :: b in f.links ==> SameSeat(f.links[b].seat, g.links[b].seat) && g.links[b].applied == f.links[b].applied
    ensures PairsInv(g)
  {
    forall r, b | r in g.runs && b in g.links ensures PairInv(g, r, b) {
      assert PairInv(f, r, b);
    }
  }

  lemma WithProc(a: AgentId, l: L.Link, p: S.Proc, p': S.Proc, act: Option<RunId>, runs: Runs)
    requires AgentInv(a, l, p, act, runs)
    requires ProcOk(a, L.Live(l), p', runs) && E.ExclusiveInv(p', DoomedRuns(runs)) && p'.over == p.over
    ensures AgentInv(a, l, p', act, runs)
  {
  }

  // ------------------------------------------------------------------------- tasks

  lemma FailOk(a: AgentId, inc: nat, p: S.Proc, runs: Runs, t: nat)
    requires ProcOk(a, inc, p, runs) && E.ExclusiveInv(p, DoomedRuns(runs)) && t in p.preps
    ensures ProcOk(a, inc, S.PrepFails(p, t), runs) && E.ExclusiveInv(S.PrepFails(p, t), DoomedRuns(runs))
    ensures S.PrepFails(p, t).over == p.over
  {
    E.PrepFailsKeeps(p, DoomedRuns(runs), t);
  }

  lemma ArmOk(a: AgentId, inc: nat, p: S.Proc, runs: Runs, t: nat)
    requires ProcOk(a, inc, p, runs) && E.ExclusiveInv(p, DoomedRuns(runs)) && t in p.preps
    ensures ProcOk(a, inc, S.PrepDone(p, t), runs) && E.ExclusiveInv(S.PrepDone(p, t), DoomedRuns(runs))
    ensures S.PrepDone(p, t).over == p.over
  {
    E.PrepDoneKeeps(p, DoomedRuns(runs), t);
    if p.slot.Preparing? && p.slot.latched.Some? {
      assert S.StartSeen(p.slot.run, p.slot.latched.value) in p.starts;
    }
    assert MsgOk(a, Ready(p.preps[t].run, p.preps[t].index), runs);
  }

  lemma EngineOk(a: AgentId, inc: nat, p: S.Proc, runs: Runs, t: nat, clean: bool)
    requires ProcOk(a, inc, p, runs) && E.ExclusiveInv(p, DoomedRuns(runs)) && t in p.engines
    ensures p.engines[t].phase.Sent? ==>
      ProcOk(a, inc, S.Begins(p, t), runs) && E.ExclusiveInv(S.Begins(p, t), DoomedRuns(runs))
    ensures p.engines[t].phase.Running? ==>
      ProcOk(a, inc, S.Ends(p, t, clean), runs) && E.ExclusiveInv(S.Ends(p, t, clean), DoomedRuns(runs))
    ensures p.engines[t].phase.Over? ==>
      ProcOk(a, inc, S.Reports(p, t), runs) && E.ExclusiveInv(S.Reports(p, t), DoomedRuns(runs))
  {
    E.ExecutionKeeps(p, DoomedRuns(runs), t, clean);
  }

  lemma ClearOk(a: AgentId, inc: nat, p: S.Proc, runs: Runs, t: nat)
    requires ProcOk(a, inc, p, runs) && E.ExclusiveInv(p, DoomedRuns(runs)) && S.CanClear(p, t)
    ensures ProcOk(a, inc, S.Clears(p, t), runs) && E.ExclusiveInv(S.Clears(p, t), DoomedRuns(runs))
    ensures S.Clears(p, t).over == p.over
  {
    E.ClearsKeeps(p, DoomedRuns(runs), t);
  }

  /** Appending evidence the runs support. */
  lemma EnqueueOk(a: AgentId, l: L.Link, p: S.Proc, act: Option<RunId>, runs: Runs, m: Message, size: nat)
    requires AgentInv(a, l, p, act, runs) && L.CanEnqueue(l, m, size) && MsgOk(a, m, runs)
    ensures AgentInv(a, L.Enqueue(l, m, size), p, act, runs)
    ensures L.Live(L.Enqueue(l, m, size)) == L.Live(l)
  {
    LP.EnqueueKeeps(l, m, size);
    var logs := L.Enqueue(l, m, size).logs;
    forall i, k | 0 <= i < |logs| && 0 <= k < |logs[i]| ensures MsgOk(a, logs[i][k], runs) {
      if k < |l.logs[i]| {
        assert logs[i][k] == l.logs[i][k];
      }
    }
  }

  lemma EnqueueStep(f: Fleet, a: AgentId, m: Message, size: nat, p: S.Proc)
    requires Inv(f) && Has(f, a) && L.CanEnqueue(f.links[a], m, size)
    requires MsgOk(a, m, f.runs)
    requires ProcOk(a, L.Live(f.links[a]), p, f.runs) && E.ExclusiveInv(p, DoomedRuns(f.runs))
    requires p.over == f.procs[a].over
    ensures Inv(Enqueue(f, a, m, size, p))
  {
    assert AgentInv(a, f.links[a], f.procs[a], f.active[a], f.runs);
    EnqueueOk(a, f.links[a], f.procs[a], f.active[a], f.runs, m, size);
    var l := L.Enqueue(f.links[a], m, size);
    WithProc(a, l, f.procs[a], p, f.active[a], f.runs);
    OneAgent(f, a, l, p);
  }

  /** A step that only moves one of the process's tasks. */
  lemma ProcStep(f: Fleet, a: AgentId, p: S.Proc)
    requires Inv(f) && Has(f, a)
    requires ProcOk(a, L.Live(f.links[a]), p, f.runs) && E.ExclusiveInv(p, DoomedRuns(f.runs))
    requires p.over == f.procs[a].over
    ensures Inv(f.(procs := f.procs[a := p]))
  {
    assert AgentInv(a, f.links[a], f.procs[a], f.active[a], f.runs);
    WithProc(a, f.links[a], f.procs[a], p, f.active[a], f.runs);
    OneAgent(f, a, f.links[a], p);
    Unchanged(f.links, a);
  }

  lemma TheAgent(f: Fleet, a: AgentId)
    requires Inv(f) && Has(f, a)
    ensures AgentInv(a, f.links[a], f.procs[a], f.active[a], f.runs)
    ensures ProcOk(a, L.Live(f.links[a]), f.procs[a], f.runs) && E.ExclusiveInv(f.procs[a], DoomedRuns(f.runs))
  {
    assert AgentInv(a, f.links[a], f.procs[a], f.active[a], f.runs);
  }

  lemma TaskStep(f: Fleet, a: AgentId, t: nat)
    requires Inv(f) && Has(f, a) && t in f.procs[a].preps
    ensures Inv(f.(procs := f.procs[a := S.PrepFails(f.procs[a], t)]))
    ensures Inv(f.(procs := f.procs[a := S.PrepDone(f.procs[a], t)]))
  {
    TheAgent(f, a);
    FailOk(a, L.Live(f.links[a]), f.procs[a], f.runs, t);
    ProcStep(f, a, S.PrepFails(f.procs[a], t));
    ArmOk(a, L.Live(f.links[a]), f.procs[a], f.runs, t);
    ProcStep(f, a, S.PrepDone(f.procs[a], t));
  }

  lemma EndStep(f: Fleet, a: AgentId, t: nat, clean: bool)
    requires Inv(f) && Has(f, a) && t in f.procs[a].engines && f.procs[a].engines[t].phase.Running?
    ensures Inv(f.(procs := f.procs[a := S.Ends(f.procs[a], t, clean)]))
  {
    TheAgent(f, a);
    EngineOk(a, L.Live(f.links[a]), f.procs[a], f.runs, t, clean);
    ProcStep(f, a, S.Ends(f.procs[a], t, clean));
  }

  lemma ClearStep(f: Fleet, a: AgentId, t: nat)
    requires Inv(f) && Has(f, a) && S.CanClear(f.procs[a], t)
    ensures Inv(f.(procs := f.procs[a := S.Clears(f.procs[a], t)]))
  {
    TheAgent(f, a);
    ClearOk(a, L.Live(f.links[a]), f.procs[a], f.runs, t);
    ProcStep(f, a, S.Clears(f.procs[a], t));
  }

  lemma ReportStep(f: Fleet, a: AgentId, m: Message, size: nat)
    requires Inv(f) && Has(f, a) && m in f.procs[a].outbox && L.CanEnqueue(f.links[a], m, size)
    ensures Inv(Enqueue(f, a, m, size, f.procs[a].(outbox := f.procs[a].outbox - multiset{m})))
  {
    TheAgent(f, a);
    PostedOk(a, L.Live(f.links[a]), f.procs[a], f.runs, m);
    EnqueueStep(f, a, m, size, f.procs[a].(outbox := f.procs[a].outbox - multiset{m}));
  }

  lemma PostedOk(a: AgentId, inc: nat, p: S.Proc, runs: Runs, m: Message)
    requires ProcOk(a, inc, p, runs) && E.ExclusiveInv(p, DoomedRuns(runs)) && m in p.outbox
    ensures MsgOk(a, m, runs)
    ensures var p' := p.(outbox := p.outbox - multiset{m});
      ProcOk(a, inc, p', runs) && E.ExclusiveInv(p', DoomedRuns(runs))
  {
    E.SameTasks(p, p.(outbox := p.outbox - multiset{m}), DoomedRuns(runs));
  }

  /** An engine that was started, ran or finished belongs to a committed run. */
  lemma EngineEvidence(a: AgentId, inc: nat, p: S.Proc, runs: Runs, t: nat)
    requires ProcOk(a, inc, p, runs) && t in p.engines
    requires !p.engines[t].phase.Waiting? && !p.engines[t].phase.Dropped?
    ensures IsCommitted(runs, p.engines[t].run)
  {
  }

  lemma BeginStep(f: Fleet, a: AgentId, t: nat, size: nat)
    requires Inv(f) && Has(f, a) && t in f.procs[a].engines && f.procs[a].engines[t].phase.Sent?
    requires L.CanEnqueue(f.links[a], Started(f.procs[a].engines[t].run), size)
    ensures Inv(Enqueue(f, a, Started(f.procs[a].engines[t].run), size, S.Begins(f.procs[a], t)))
  {
    TheAgent(f, a);
    EngineEvidence(a, L.Live(f.links[a]), f.procs[a], f.runs, t);
    EngineOk(a, L.Live(f.links[a]), f.procs[a], f.runs, t, true);
    EnqueueStep(f, a, Started(f.procs[a].engines[t].run), size, S.Begins(f.procs[a], t));
  }

  lemma EmitStep(f: Fleet, a: AgentId, t: nat, d: int, size: nat)
    requires Inv(f) && Has(f, a) && t in f.procs[a].engines
    requires f.procs[a].engines[t].phase.Running? || f.procs[a].engines[t].phase.Over?
    requires L.CanEnqueue(f.links[a], Metrics(f.procs[a].engines[t].run, d), size)
    ensures Inv(Enqueue(f, a, Metrics(f.procs[a].engines[t].run, d), size, f.procs[a]))
  {
    TheAgent(f, a);
    EngineEvidence(a, L.Live(f.links[a]), f.procs[a], f.runs, t);
    EnqueueStep(f, a, Metrics(f.procs[a].engines[t].run, d), size, f.procs[a]);
  }

  lemma EndReportStep(f: Fleet, a: AgentId, t: nat, k: EndKind, size: nat)
    requires Inv(f) && Has(f, a) && t in f.procs[a].engines && f.procs[a].engines[t].phase.Over?
    requires L.CanEnqueue(f.links[a], Ended(f.procs[a].engines[t].run, k), size)
    ensures Inv(Enqueue(f, a, Ended(f.procs[a].engines[t].run, k), size, S.Reports(f.procs[a], t)))
  {
    TheAgent(f, a);
    EngineEvidence(a, L.Live(f.links[a]), f.procs[a], f.runs, t);
    EngineOk(a, L.Live(f.links[a]), f.procs[a], f.runs, t, true);
    EnqueueStep(f, a, Ended(f.procs[a].engines[t].run, k), size, S.Reports(f.procs[a], t));
  }
}
