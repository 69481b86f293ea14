/** Registration, with its follow-up, keeps the fleet's invariant: restarts, replays and resumes. */
module FleetSeatProof {
  import opened Basics
  import L = Delivery
  import LP = DeliveryProof
  import R = RunLifecycle
  import S = AgentSlot
  import E = AgentExclusive
  import M = FleetMono
  import opened Fleet
  import opened FleetInv
  import opened FleetAgentProof
  import opened FleetControlProof

  /** What a registration of `a` may do to a run. */
  ghost predicate Touched(run: R.Run, run': R.Run, a: AgentId) {
    && run'.state == run.state && run'.startAt == run.startAt
    && run'.agg == run.agg && run'.late == run.late && run'.phases == run.phases
    && run'.roster == run.roster && run'.submitInc == run.submitInc && run'.done == run.done
    && (run.failure.Some? ==> run'.failure.Some?)
    && (forall b :: b != a && b in run.lost ==> b in run'.lost)
  }

  lemma RestartedSettles(run: R.Run, a: AgentId)
    ensures Touched(run, R.Restarted(run, a), a)
    ensures !R.IsTerminal(run.state) ==>
      if run.state.Pending? then R.Restarted(run, a).failure.Some? else a in run.done || a in R.Restarted(run, a).lost
  {
  }

  lemma RestartedTouches(run: R.Run, a: AgentId)
    requires R.RunInv(run)
    ensures R.RunInv(R.Restarted(run, a)) && R.Evolves(run, R.Restarted(run, a)) && Touched(run, R.Restarted(run, a), a)
    ensures !R.IsTerminal(run.state) ==>
      if R.Committed(run) then a in run.done || a in R.Restarted(run, a).lost else R.Restarted(run, a).failure.Some?
  {
    R.RestartedKeeps(run, a);
    RestartedSettles(run, a);
  }

  lemma ResumedTouches(run: R.Run, a: AgentId)
    requires R.RunInv(run)
    ensures R.RunInv(R.Resumed(run, a)) && R.Evolves(run, R.Resumed(run, a)) && Touched(run, R.Resumed(run, a), a)
  {
    R.ResumedKeeps(run, a);
  }

  lemma OneTouched(runs: Runs, r: RunId, run': R.Run, a: AgentId)
    requires RunsInv(runs) && r in runs && R.RunInv(run') && R.Evolves(runs[r], run') && Touched(runs[r], run', a)
    ensures RunsInv(runs[r := run']) && RunsEvolve(runs, runs[r := run']) && AllTouched(runs, runs[r := run'], a)
  {
    RunsUpdated(runs, r, run');
    M.OneRunEvolves(runs, r, run');
  }

  ghost predicate AllTouched(runs: Runs, runs': Runs, a: AgentId) {
    && runs'.Keys == runs.Keys
    && (forall q :: q in runs ==> Touched(runs[q], runs'[q], a))
  }

  lemma NoneTouched(runs: Runs, a: AgentId)
    ensures RunsEvolve(runs, runs) && AllTouched(runs, runs, a)
  {
    forall q | q in runs ensures R.Evolves(runs[q], runs[q]) {
      M.Reflexive(runs[q]);
    }
  }

  lemma FollowupTouches(f: Fleet, a: AgentId, c: nat)
    requires Inv(f) && Has(f, a) && c < |f.links[a].conns|
    ensures var runs' := FollowupRuns(f, a, c);
      RunsInv(runs') && RunsEvolve(f.runs, runs') && AllTouched(f.runs, runs', a)
  {
    NoneTouched(f.runs, a);
    var act, claim := f.active[a], f.links[a].conns[c].claim;
    if Restarts(f, a, c) {
      if act.Some? && act.value in f.runs {
        assert R.RunInv(f.runs[act.value]);
        RestartedTouches(f.runs[act.value], a);
        OneTouched(f.runs, act.value, R.Restarted(f.runs[act.value], a), a);
      }
    } else if claim.Some? && claim.value in f.runs {
      assert R.RunInv(f.runs[claim.value]);
      ResumedTouches(f.runs[claim.value], a);
      OneTouched(f.runs, claim.value, R.Resumed(f.runs[claim.value], a), a);
    }
  }

  // ------------------------------------------------------------------ the replayed order

  lemma AssignmentOk(a: AgentId, inc: nat, r: RunId, runs: Runs)
    requires r in runs && R.RunInv(runs[r]) && a in runs[r].roster
    requires a in runs[r].submitInc && runs[r].submitInc[a] == inc
    requires a in runs[r].phases && runs[r].phases[a].Assigned?
    ensures OrderOk(a, inc, AssignmentFor(r, runs[r], a), runs) && Sendable(AssignmentFor(r, runs[r], a), runs)
  {
  }

  lemma ResumeOrderOk(a: AgentId, inc: nat, q: RunId, runs: Runs)
    requires q in runs && R.RunInv(runs[q]) && ClaimOk(a, inc, Some(q), runs)
    ensures var o := ResumeOrder(q, runs[q], a);
      o.Some? ==> OrderOk(a, inc, o.value, runs) && Sendable(o.value, runs)
  {
    var run := runs[q];
    if R.IsTerminal(run.state) || a in run.done {
    } else if a in run.phases && run.phases[a].Assigned? {
      AssignmentOk(a, inc, q, runs);
    }
  }

  lemma FollowupOrderOk(f: Fleet, a: AgentId, c: nat)
    requires Inv(f) && Has(f, a) && c < |f.links[a].conns|
    ensures var o := FollowupOrder(f, a, c);
      o.Some? ==> OrderOk(a, f.links[a].conns[c].inc, o.value, f.runs) && Sendable(o.value, f.runs)
  {
    TheAgent(f, a);
    var conn, act := f.links[a].conns[c], f.active[a];
    assert ConnOk(a, conn, f.runs);
    if !Restarts(f, a, c) {
      if conn.claim.Some? {
        assert R.RunInv(f.runs[conn.claim.value]);
        ResumeOrderOk(a, conn.inc, conn.claim.value, f.runs);
      } else if act.Some? {
        assert ActiveOk(a, f.links[a].seat, act, f.runs);
        assert R.RunInv(f.runs[act.value]);
        if Replays(f.runs[act.value], a) {
          AssignmentOk(a, conn.inc, act.value, f.runs);
        }
      }
    }
  }

  // ------------------------------------------------------------------------ the agent

  lemma TakeSeatOk(a: AgentId, l: L.Link, p: S.Proc, act: Option<RunId>, act': Option<RunId>, runs: Runs, c: nat, session: nat)
    requires AgentInv(a, l, p, act, runs) && L.CanSeat(l, c, session)
    requires act' == if l.seat.Some? && l.seat.value.inc != l.conns[c].inc then None else act
    ensures AgentInv(a, L.TakeSeat(l, c, session), p, act', runs)
  {
    LP.TakeSeatKeeps(l, c, session);
    var conns := L.TakeSeat(l, c, session).conns;
    forall d | 0 <= d < |conns| ensures ConnOk(a, conns[d], runs) {
      assert ConnOk(a, l.conns[d], runs);
    }
  }

  lemma ActiveTouched(a: AgentId, b: AgentId, seat: Option<L.Seat>, act: Option<RunId>, runs: Runs, runs': Runs)
    requires ActiveOk(b, seat, act, runs) && AllTouched(runs, runs', a)
    ensures ActiveOk(b, seat, act, runs')
  {
    if act.Some? {
      assert Touched(runs[act.value], runs'[act.value], a);
    }
  }

  lemma SeatAgent(a: AgentId, l: L.Link, p: S.Proc, act: Option<RunId>, act': Option<RunId>, runs: Runs, runs': Runs,
                  c: nat, session: nat, o: Option<Order>)
    requires AgentInv(a, l, p, act, runs) && L.CanSeat(l, c, session)
    requires act' == if l.seat.Some? && l.seat.value.inc != l.conns[c].inc then None else act
    requires RunsEvolve(runs, runs') && AllTouched(runs, runs', a)
    requires o.Some? ==> OrderOk(a, l.conns[c].inc, o.value, runs) && Sendable(o.value, runs)
    ensures var l1 := L.TakeSeat(l, c, session);
      AgentInv(a, if o.Some? then L.SendOrder(l1, o.value) else l1, p, act', runs')
  {
    var l1 := L.TakeSeat(l, c, session);
    TakeSeatOk(a, l, p, act, act', runs, c, session);
    ActiveOfInv(a, l1, p, act', runs);
    ActiveTouched(a, a, l1.seat, act', runs, runs');
    M.AgentMono(a, l1, p, act', act', runs, runs');
    if o.Some? {
      M.OrderMono(a, l.conns[c].inc, o.value, runs, runs');
      if o.value.Assignment? {
        assert Touched(runs[o.value.run], runs'[o.value.run], a);
      }
      SendOk(a, l1, p, act', runs', o.value);
    }
  }

  lemma ActiveOfInv(a: AgentId, l: L.Link, p: S.Proc, act: Option<RunId>, runs: Runs)
    requires AgentInv(a, l, p, act, runs)
    ensures ActiveOk(a, l.seat, act, runs)
  {
  }

  // --------------------------------------------------------------------- reservations

  /** A restart settles the old process's part in the one run it was reserved for. */
  lemma ReservationAfterSeat(f: Fleet, a: AgentId, c: nat, session: nat, q: RunId)
    requires Inv(f) && Has(f, a) && L.CanSeat(f.links[a], c, session) && q in f.runs && a in f.runs[q].roster
    ensures q in FollowupRuns(f, a, c)
    ensures ReservationOk(q, FollowupRuns(f, a, c)[q], a, L.TakeSeat(f.links[a], c, session).seat,
              if Restarts(f, a, c) then None else f.active[a])
  {
    TheAgent(f, a);
    assert PairInv(f, q, a);
    assert R.RunInv(f.runs[q]);
    var l, act := f.links[a], f.active[a];
    assert ConnOk(a, l.conns[c], f.runs);
    if Restarts(f, a, c) {
      if act == Some(q) {
        RestartedTouches(f.runs[q], a);
      }
    } else if l.conns[c].claim == Some(q) {
      ResumedTouches(f.runs[q], a);
    }
  }

  lemma OtherReservation(r: RunId, run: R.Run, run': R.Run, a: AgentId, b: AgentId, seat: Option<L.Seat>, act: Option<RunId>)
    requires ReservationOk(r, run, b, seat, act) && Touched(run, run', a) && b != a
    ensures ReservationOk(r, run', b, seat, act)
  {
  }

  lemma SeatPairs(f: Fleet, g: Fleet, a: AgentId)
    requires Domains(f) && PairsInv(f) && Domains(g) && Has(f, a)
    requires g.links.Keys == f.links.Keys && AllTouched(f.runs, g.runs, a)
    requires forall b :: b in g.links ==> g.links[b].applied == f.links[b].applied
    requires forall b :: b in g.links && b != a ==> g.links[b].seat == f.links[b].seat && g.active[b] == f.active[b]
    requires forall q :: q in g.runs && a in g.runs[q].roster ==>
      ReservationOk(q, g.runs[q], a, g.links[a].seat, g.active[a])
    ensures PairsInv(g)
  {
    forall q, b | q in g.runs && b in g.links ensures PairInv(g, q, b) {
      assert PairInv(f, q, b);
      assert Touched(f.runs[q], g.runs[q], a);
      ReadyStands(f.runs[q], g.runs[q], q, b, f.links[b].applied);
      if b != a && b in f.runs[q].roster {
        OtherReservation(q, f.runs[q], g.runs[q], a, b, f.links[b].seat, f.active[b]);
      }
    }
  }

  // ------------------------------------------------------------------------- the step

  lemma SeatAt(f: Fleet, a: AgentId, c: nat, session: nat, lost: bool)
    requires Inv(f) && Has(f, a) && L.CanSeat(f.links[a], c, session)
    ensures var g := Seat(f, a, c, session, lost);
      AgentInv(a, g.links[a], g.procs[a], g.active[a], g.runs)
  {
    FollowupTouches(f, a, c);
    FollowupOrderOk(f, a, c);
    TheAgent(f, a);
    SeatAgent(a, f.links[a], f.procs[a], f.active[a], if Restarts(f, a, c) then None else f.active[a],
              f.runs, FollowupRuns(f, a, c), c, session, if lost then None else FollowupOrder(f, a, c));
  }

  lemma OthersActive(f: Fleet, g: Fleet, a: AgentId)
    requires Domains(f) && AgentsInv(f) && Domains(g) && AllTouched(f.runs, g.runs, a)
    requires g.links.Keys == f.links.Keys
    requires forall b :: b in g.links && b != a ==> g.links[b] == f.links[b] && g.active[b] == f.active[b]
    ensures forall b :: b in g.links && b != a ==> ActiveOk(b, g.links[b].seat, g.active[b], g.runs)
  {
    forall b | b in g.links && b != a ensures ActiveOk(b, g.links[b].seat, g.active[b], g.runs) {
      assert AgentInv(b, f.links[b], f.procs[b], f.active[b], f.runs);
      ActiveOfInv(b, f.links[b], f.procs[b], f.active[b], f.runs);
      ActiveTouched(a, b, f.links[b].seat, f.active[b], f.runs, g.runs);
    }
  }

  /** What `Seat` does to the fleet, field by field. */
  ghost predicate Seated(f: Fleet, g: Fleet, a: AgentId, c: nat, session: nat)
    requires Has(f, a) && L.CanSeat(f.links[a], c, session)
  {
    && g.procs == f.procs && g.links.Keys == f.links.Keys && g.active.Keys == f.active.Keys
    && g.links[a].logs == f.links[a].logs && g.links[a].applied == f.links[a].applied
    && g.links[a].seat == L.TakeSeat(f.links[a], c, session).seat
    && (forall b :: b in g.links && b != a ==> g.links[b] == f.links[b])
    && g.active == f.active[a := if Restarts(f, a, c) then None else f.active[a]]
    && g.runs == FollowupRuns(f, a, c)
  }

  lemma SeatDoes(f: Fleet, a: AgentId, c: nat, session: nat, lost: bool)
    requires Has(f, a) && L.CanSeat(f.links[a], c, session)
    requires f.procs.Keys == f.links.Keys && f.active.Keys == f.links.Keys
    ensures Seated(f, Seat(f, a, c, session, lost), a, c, session)
  {
  }

  lemma SeatedReservations(f: Fleet, g: Fleet, a: AgentId, c: nat, session: nat)
    requires Inv(f) && Has(f, a) && L.CanSeat(f.links[a], c, session) && Seated(f, g, a, c, session) && Domains(g)
    requires AllTouched(f.runs, g.runs, a)
    ensures PairsInv(g)
  {
    forall q | q in g.runs && a in g.runs[q].roster
      ensures ReservationOk(q, g.runs[q], a, g.links[a].seat, g.active[a])
    {
      assert Touched(f.runs[q], g.runs[q], a);
      ReservationAfterSeat(f, a, c, session, q);
    }
    SeatPairs(f, g, a);
  }

  lemma SeatedDomains(f: Fleet, g: Fleet, a: AgentId, c: nat, session: nat)
    requires Inv(f) && Has(f, a) && L.CanSeat(f.links[a], c, session) && Seated(f, g, a, c, session)
    ensures Domains(g) && RunsInv(g.runs) && RunsEvolve(f.runs, g.runs) && AllTouched(f.runs, g.runs, a)
  {
    FollowupTouches(f, a, c);
    DomainsEvolve(f, g);
  }

  lemma SeatedAgents(f: Fleet, g: Fleet, a: AgentId)
    requires Domains(f) && AgentsInv(f) && Domains(g) && a in f.links
    requires RunsEvolve(f.runs, g.runs) && AllTouched(f.runs, g.runs, a)
    requires g.links.Keys == f.links.Keys && g.procs == f.procs
    requires forall b :: b in g.links && b != a ==> g.links[b] == f.links[b] && g.active[b] == f.active[b]
    requires AgentInv(a, g.links[a], g.procs[a], g.active[a], g.runs)
    ensures AgentsInv(g)
  {
    OthersActive(f, g, a);
    OneChanged(f, g, a);
  }

  lemma SeatedOthers(f: Fleet, g: Fleet, a: AgentId, c: nat, session: nat)
    requires Domains(f) && AgentsInv(f) && Has(f, a) && L.CanSeat(f.links[a], c, session)
    requires Seated(f, g, a, c, session) && Domains(g) && RunsEvolve(f.runs, g.runs) && AllTouched(f.runs, g.runs, a)
    requires AgentInv(a, g.links[a], g.procs[a], g.active[a], g.runs)
    ensures AgentsInv(g)
  {
    SeatedAgents(f, g, a);
  }

  lemma SeatedInv(f: Fleet, g: Fleet, a: AgentId, c: nat, session: nat)
    requires Inv(f) && Has(f, a) && L.CanSeat(f.links[a], c, session) && Seated(f, g, a, c, session)
    requires AgentInv(a, g.links[a], g.procs[a], g.active[a], g.runs)
    ensures Inv(g)
  {
    SeatedDomains(f, g, a, c, session);
    SeatedReservations(f, g, a, c, session);
    SeatedOthers(f, g, a, c, session);
  }

  lemma SeatStep(f: Fleet, a: AgentId, c: nat, session: nat, lost: bool)
    requires Inv(f) && Has(f, a) && L.CanSeat(f.links[a], c, session)
    ensures Inv(Seat(f, a, c, session, lost))
  {
    SeatAt(f, a, c, session, lost);
    SeatDoes(f, a, c, session, lost);
    SeatedInv(f, Seat(f, a, c, session, lost), a, c, session);
  }
}
