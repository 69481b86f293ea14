/** Submission reserves, creates and assigns in one step and keeps the fleet's invariant. */
module FleetSubmitProof {
  import opened Basics
  import L = Delivery
  import R = RunLifecycle
  import S = AgentSlot
  import M = FleetMono
  import P = FleetProcessProof
  import opened Fleet
  import opened FleetInv
  import opened FleetAgentProof
  import opened FleetControlProof

  ghost function Created(f: Fleet, chosen: seq<AgentId>, onLoss: R.OnAgentLoss): R.Run {
    R.Submitted(chosen, onLoss,
      map a | a in f.links && a in chosen && f.links[a].seat.Some? :: f.links[a].seat.value.inc)
  }

  lemma SubmitRuns(f: Fleet, r: RunId, chosen: seq<AgentId>, onLoss: R.OnAgentLoss)
    requires Inv(f) && Eligible(f, r, chosen)
    ensures var runs' := f.runs[r := Created(f, chosen, onLoss)];
      RunsInv(runs') && RunsEvolve(f.runs, runs') && R.RunInv(runs'[r])
  {
    var run := Created(f, chosen, onLoss);
    R.SubmittedKeeps(chosen, onLoss, run.submitInc);
    RunsUpdated(f.runs, r, run);
    M.NewRunEvolves(f.runs, r, run);
  }

  lemma ChosenAgent(f: Fleet, r: RunId, chosen: seq<AgentId>, onLoss: R.OnAgentLoss, b: AgentId)
    requires Inv(f) && Eligible(f, r, chosen) && b in chosen
    ensures Has(f, b)
    ensures var run := Created(f, chosen, onLoss);
      AgentInv(b, L.SendOrder(f.links[b], AssignmentFor(r, run, b)), f.procs[b], Some(r), f.runs[r := run])
  {
    var run := Created(f, chosen, onLoss);
    var runs' := f.runs[r := run];
    SubmitRuns(f, r, chosen, onLoss);
    assert Has(f, b) && f.links[b].seat.Some?;
    TheAgent(f, b);
    assert ActiveOk(b, f.links[b].seat, Some(r), runs');
    M.AgentMono(b, f.links[b], f.procs[b], f.active[b], Some(r), f.runs, runs');
    SendOk(b, f.links[b], f.procs[b], Some(r), runs', AssignmentFor(r, run, b));
  }

  lemma OtherAgent(f: Fleet, r: RunId, chosen: seq<AgentId>, onLoss: R.OnAgentLoss, b: AgentId)
    requires Inv(f) && Eligible(f, r, chosen) && b in f.links
    ensures AgentInv(b, f.links[b], f.procs[b], f.active[b], f.runs[r := Created(f, chosen, onLoss)])
  {
    var runs' := f.runs[r := Created(f, chosen, onLoss)];
    SubmitRuns(f, r, chosen, onLoss);
    TheAgent(f, b);
    assert ActiveOk(b, f.links[b].seat, f.active[b], runs');
    M.AgentMono(b, f.links[b], f.procs[b], f.active[b], f.active[b], f.runs, runs');
  }

  /** No delta for a run that does not exist yet has ever been applied. */
  lemma FreshLedger(f: Fleet, r: RunId, chosen: seq<AgentId>, onLoss: R.OnAgentLoss, b: AgentId)
    requires Inv(f) && r !in f.runs && b in f.links
    ensures LedgerOk(Created(f, chosen, onLoss), r, b, f.links[b].applied)
  {
    TheAgent(f, b);
    forall d: int ensures Metrics(r, d) !in f.links[b].applied {
      if Metrics(r, d) in f.links[b].applied {
        P.AdmittedOk(b, f.links[b], Metrics(r, d), f.runs);
        assert false;
      }
    }
  }

  lemma SubmitPairs(f: Fleet, g: Fleet, r: RunId, chosen: seq<AgentId>, onLoss: R.OnAgentLoss)
    requires Inv(f) && Eligible(f, r, chosen) && Domains(g)
    requires g.runs == f.runs[r := Created(f, chosen, onLoss)] && g.links.Keys == f.links.Keys
    requires forall b :: b in g.links ==>
      g.links[b].seat == f.links[b].seat && g.links[b].applied == f.links[b].applied
    requires forall b :: b in g.active ==> g.active[b] == if b in chosen then Some(r) else f.active[b]
    ensures PairsInv(g)
  {
    forall q, b | q in g.runs && b in g.links ensures PairInv(g, q, b) {
      if q == r {
        FreshLedger(f, r, chosen, onLoss, b);
      } else {
        assert PairInv(f, q, b);
      }
    }
  }

  lemma SubmitAgents(f: Fleet, g: Fleet, r: RunId, chosen: seq<AgentId>, onLoss: R.OnAgentLoss)
    requires Inv(f) && Eligible(f, r, chosen) && Domains(g) && g == Submit(f, r, chosen, onLoss)
    ensures AgentsInv(g)
  {
    forall b | b in g.links ensures AgentInv(b, g.links[b], g.procs[b], g.active[b], g.runs) {
      if b in chosen {
        ChosenAgent(f, r, chosen, onLoss, b);
      } else {
        OtherAgent(f, r, chosen, onLoss, b);
      }
    }
  }

  lemma SubmitDomains(f: Fleet, r: RunId, chosen: seq<AgentId>, onLoss: R.OnAgentLoss)
    requires Domains(f) && Eligible(f, r, chosen)
    ensures Domains(Submit(f, r, chosen, onLoss))
  {
  }

  lemma SubmitStep(f: Fleet, r: RunId, chosen: seq<AgentId>, onLoss: R.OnAgentLoss)
    requires Inv(f) && Eligible(f, r, chosen)
    ensures Inv(Submit(f, r, chosen, onLoss))
  {
    var g := Submit(f, r, chosen, onLoss);
    SubmitRuns(f, r, chosen, onLoss);
    SubmitDomains(f, r, chosen, onLoss);
    SubmitAgents(f, g, r, chosen, onLoss);
    SubmitPairs(f, g, r, chosen, onLoss);
  }
}
