/** The fleet's guarantees, each stated of every state some schedule can reach. */
module FleetGuarantees {
  import opened Basics
  import UplinkWindow
  import L = Delivery
  import LP = DeliveryProof
  import R = RunLifecycle
  import RS = RunSafety
  import S = AgentSlot
  import E = AgentExclusive
  import AP = FleetAgentProof
  import PP = FleetProcessProof
  import CP = FleetControlProof
  import TP = FleetSeatProof
  import opened Fleet
  import opened FleetInv
  import opened FleetTheorems

  /** `o` is in flight towards `a` on some stream. */
  ghost predicate InFlight(f: Fleet, a: AgentId, o: Order) {
    a in f.links && exists c, k ::
      0 <= c < |f.links[a].conns| && 0 <= k < |f.links[a].conns[c].down| && f.links[a].conns[c].down[k] == L.Deliver(o)
  }

  /** `a` logged `m`, under some incarnation. */
  ghost predicate Logged(f: Fleet, a: AgentId, m: Message) {
    a in f.links && exists i, k ::
      0 <= i < |f.links[a].logs| && 0 <= k < |f.links[a].logs[i]| && f.links[a].logs[i][k] == m
  }

  lemma InFlightOk(f: Fleet, a: AgentId, o: Order)
    requires Inv(f) && InFlight(f, a, o)
    ensures Has(f, a) && exists inc :: OrderOk(a, inc, o, f.runs)
  {
    AP.TheAgent(f, a);
    var c, k :|
      0 <= c < |f.links[a].conns| && 0 <= k < |f.links[a].conns[c].down| && f.links[a].conns[c].down[k] == L.Deliver(o);
    assert ConnOk(a, f.links[a].conns[c], f.runs);
    assert OrderOk(a, f.links[a].conns[c].inc, o, f.runs);
  }

  // ------------------------------------------------------------------- start causality

  /** No `started`, metrics or terminal event exists for a run that the barrier has not committed. */
  lemma EvidenceFollowsCommit(f: Fleet, agents: set<AgentId>, limits: UplinkWindow.Limits, steps: seq<FleetStep>,
                              a: AgentId, m: Message)
    requires Reached(f, agents, limits, steps)
    requires Logged(f, a, m) && (m.Started? || m.Metrics? || m.Ended?)
    ensures m.run in f.runs && f.runs[m.run].startAt.Some? && !f.runs[m.run].state.Pending?
  {
    ReachedInv(f, agents, limits, steps);
    AP.TheAgent(f, a);
    var i, k :| 0 <= i < |f.links[a].logs| && 0 <= k < |f.links[a].logs[i]| && f.links[a].logs[i][k] == m;
    assert MsgOk(a, f.links[a].logs[i][k], f.runs);
    assert R.RunInv(f.runs[m.run]);
  }

  /**
   A pending run becomes running only when its barrier commits it. By then every participant's own
   readiness report has been applied, and resetting the aggregator discards nothing.
   */
  lemma OnlyTheBarrierStarts(f: Fleet, agents: set<AgentId>, limits: UplinkWindow.Limits, steps: seq<FleetStep>,
                             step: FleetStep, r: RunId)
    requires Reached(f, agents, limits, steps) && Enabled(f, step)
    requires r in f.runs && f.runs[r].state.Pending?
    requires r in Next(f, step).runs && Next(f, step).runs[r].state.Running?
    ensures step.CtlProgress? && step.run == r && step.step.OnPoll?
    ensures Next(f, step).runs[r].startAt == Some(step.step.at)
    ensures f.runs[r].agg == multiset{} && f.runs[r].contributing == {}
    ensures forall a :: a in f.runs[r].roster ==>
      a in f.links && exists i :: R.HoldsPartition(f.runs[r], a, i) && Ready(r, i) in f.links[a].applied
  {
    ReachedInv(f, agents, limits, steps);
    CommitOnly(f, step, r);
    assert R.RunInv(f.runs[r]);
    assert R.ContributingInv(f.runs[r].contributing, f.runs[r].agg);
    forall a | a in f.runs[r].roster
      ensures a in f.links && exists i :: R.HoldsPartition(f.runs[r], a, i) && Ready(r, i) in f.links[a].applied
    {
      var k :| 0 <= k < |f.runs[r].roster| && f.runs[r].roster[k] == a;
      assert PairInv(f, r, a);
    }
  }

  lemma OtherControlCommitsNothing(f: Fleet, step: FleetStep, r: RunId)
    requires Inv(f) && !IsAgentStep(step) && !IsStreamStep(step) && !step.CtlProgress? && ControlEnabled(f, step)
    requires r in f.runs
    ensures r in ControlNext(f, step).runs && ControlNext(f, step).runs[r].state == f.runs[r].state
  {
    match step
    case CtlSeat(a, c, _, _) =>
      TP.FollowupTouches(f, a, c);
      assert TP.Touched(f.runs[r], FollowupRuns(f, a, c)[r], a);
    case CtlProcess(a, m, _) => PP.ProcessRuns(f, a, m);
    case _ =>
  }

  lemma OtherStepsCommitNothing(f: Fleet, step: FleetStep, r: RunId)
    requires Inv(f) && Enabled(f, step) && r in f.runs && !step.CtlProgress?
    ensures r in Next(f, step).runs && Next(f, step).runs[r].state == f.runs[r].state
  {
    if IsAgentStep(step) || IsStreamStep(step) {
      StepKeeps(f, step);
    } else {
      OtherControlCommitsNothing(f, step, r);
    }
  }

  lemma CommitOnly(f: Fleet, step: FleetStep, r: RunId)
    requires Inv(f) && Enabled(f, step) && r in f.runs && f.runs[r].state.Pending?
    requires r in Next(f, step).runs && Next(f, step).runs[r].state.Running?
    ensures step.CtlProgress? && step.run == r && step.step.OnPoll?
    ensures Next(f, step).runs[r].startAt == Some(step.step.at)
    ensures forall a :: a in f.runs[r].roster ==> a in f.runs[r].phases && f.runs[r].phases[a].Ready?
  {
    if step.CtlProgress? {
      assert R.RunInv(f.runs[r]);
      if step.run == r {
        RS.OnlyTheBarrierStarts(f.runs[r], step.step);
      }
    } else {
      OtherStepsCommitNothing(f, step, r);
    }
  }

  // ------------------------------------------------------------ one clock, one partition

  /** Every Start in flight carries the one committed timestamp, now and at any later time. */
  lemma OneClock(f: Fleet, agents: set<AgentId>, limits: UplinkWindow.Limits, steps: seq<FleetStep>,
                 more: seq<FleetStep>, a: AgentId, b: AgentId, r: RunId, at: int, at': int)
    requires Reached(f, agents, limits, steps)
    requires InFlight(f, a, Start(r, at)) && InFlight(After(f, more), b, Start(r, at'))
    ensures at == at' && r in f.runs && f.runs[r].startAt == Some(at)
    ensures forall c :: c in f.runs[r].roster ==> c in f.runs[r].phases && f.runs[r].phases[c].Ready?
  {
    ReachedInv(f, agents, limits, steps);
    AfterKeeps(f, more);
    InFlightOk(f, a, Start(r, at));
    InFlightOk(After(f, more), b, Start(r, at'));
    assert R.RunInv(f.runs[r]);
  }

  /** Every Assignment of a run, first or replayed, names its agent's own partition of one fixed split. */
  lemma OnePartition(f: Fleet, agents: set<AgentId>, limits: UplinkWindow.Limits, steps: seq<FleetStep>,
                     a: AgentId, b: AgentId, r: RunId, i: nat, n: nat, j: nat, m: nat)
    requires Reached(f, agents, limits, steps)
    requires InFlight(f, a, Assignment(r, i, n)) && InFlight(f, b, Assignment(r, j, m))
    ensures r in f.runs && n == m == |f.runs[r].roster| && i < n && j < n
    ensures i == j <==> a == b
    ensures f.runs[r].roster[i] == a && R.Distinct(f.runs[r].roster)
    ensures forall k :: 0 <= k < n ==> f.runs[r].roster[k] in f.links
  {
    ReachedInv(f, agents, limits, steps);
    InFlightOk(f, a, Assignment(r, i, n));
    InFlightOk(f, b, Assignment(r, j, m));
    assert R.RunInv(f.runs[r]);
  }

  // -------------------------------------------------------------- no start after failure

  /** A run that failed, was stopped or timed out before its start never starts anywhere, ever after. */
  lemma NoStartAfterFailure(f: Fleet, agents: set<AgentId>, limits: UplinkWindow.Limits, steps: seq<FleetStep>,
                            more: seq<FleetStep>, r: RunId, a: AgentId)
    requires Reached(f, agents, limits, steps) && r in f.runs
    requires !R.Committed(f.runs[r]) && (f.runs[r].failure.Some? || f.runs[r].barrier.Failing?)
    ensures var g := After(f, more);
      && r in g.runs && !R.Committed(g.runs[r])
      && (forall at :: !InFlight(g, a, Start(r, at)))
      && (a in g.procs ==>
        && (forall at :: S.StartSeen(r, at) !in g.procs[a].starts)
        && (forall t :: t in g.procs[a].engines && g.procs[a].engines[t].run == r ==>
          g.procs[a].engines[t].phase.Waiting? || g.procs[a].engines[t].phase.Dropped?))
  {
    ReachedInv(f, agents, limits, steps);
    AfterKeeps(f, more);
    var g := After(f, more);
    assert R.Doomed(f.runs[r]) && R.Doomed(g.runs[r]);
    forall at ensures !InFlight(g, a, Start(r, at)) {
      if InFlight(g, a, Start(r, at)) {
        InFlightOk(g, a, Start(r, at));
      }
    }
    if a in g.procs {
      AP.TheAgent(g, a);
    }
  }

  // -------------------------------------------------------------------- reservations

  /** While a run is committed and unsettled, every participant it still counts on is reserved for it. */
  lemma ReservedWhileNeeded(f: Fleet, agents: set<AgentId>, limits: UplinkWindow.Limits, steps: seq<FleetStep>,
                            r: RunId, a: AgentId)
    requires Reached(f, agents, limits, steps) && r in f.runs && a in f.runs[r].roster
    requires R.Committed(f.runs[r]) && !R.IsTerminal(f.runs[r].state)
    requires a !in f.runs[r].done && a !in f.runs[r].lost
    ensures a in f.active && f.active[a] == Some(r)
  {
    ReachedInv(f, agents, limits, steps);
    var k :| 0 <= k < |f.runs[r].roster| && f.runs[r].roster[k] == a;
    assert PairInv(f, r, a);
  }

  /** Two unsettled runs never count on the same agent, and a settled run holds no reservation. */
  lemma ExclusiveReservations(f: Fleet, agents: set<AgentId>, limits: UplinkWindow.Limits, steps: seq<FleetStep>,
                              r: RunId, q: RunId, a: AgentId)
    requires Reached(f, agents, limits, steps) && r in f.runs && q in f.runs
    requires a in f.runs[r].roster && a in f.runs[q].roster
    ensures a in f.active && (f.active[a] == Some(r) ==> !R.IsTerminal(f.runs[r].state))
    ensures
      && R.Committed(f.runs[r]) && !R.IsTerminal(f.runs[r].state) && a !in f.runs[r].done && a !in f.runs[r].lost
      && R.Committed(f.runs[q]) && !R.IsTerminal(f.runs[q].state) && a !in f.runs[q].done && a !in f.runs[q].lost
      ==> r == q
  {
    ReachedInv(f, agents, limits, steps);
    var k :| 0 <= k < |f.runs[r].roster| && f.runs[r].roster[k] == a;
    AP.TheAgent(f, a);
    assert PairInv(f, r, a) && PairInv(f, q, a);
  }

  // ---------------------------------------------------------------------- the agents

  /** At most one engine per process is started and unfinished. */
  lemma OneEngineAtATime(f: Fleet, agents: set<AgentId>, limits: UplinkWindow.Limits, steps: seq<FleetStep>,
                         a: AgentId, t: nat, u: nat)
    requires Reached(f, agents, limits, steps) && Has(f, a)
    requires t in f.procs[a].engines && E.Started(f.procs[a].engines[t].phase)
    requires u in f.procs[a].engines && E.Started(f.procs[a].engines[u].phase)
    ensures t == u && f.procs[a].slot == S.Armed(f.procs[a].engines[t].run, t)
    ensures f.procs[a].engines[t].run in f.runs && f.runs[f.procs[a].engines[t].run].startAt.Some?
  {
    ReachedInv(f, agents, limits, steps);
    AP.TheAgent(f, a);
    E.AtMostOneStarted(f.procs[a], DoomedRuns(f.runs), t, u);
  }

  // -------------------------------------------------------------------- exact delivery

  /**
   Delivery in the composed fleet, for every agent and every kind of message. Each incarnation's
   admissions are 1, 2, 3, ... of its log and are applied once or still owed; the live process's log
   is the admitted prefix and a suffix of its window; neither defensive branch can be taken.
   */
  lemma ExactDelivery(f: Fleet, agents: set<AgentId>, limits: UplinkWindow.Limits, steps: seq<FleetStep>, a: AgentId)
    requires Reached(f, agents, limits, steps) && a in f.links
    ensures LP.AdmittedOnce(f.links[a])
    ensures f.links[a].logs != [] && LP.Lossless(f.links[a])
    ensures LP.BranchesDead(f.links[a])
  {
    ReachedInv(f, agents, limits, steps);
    AP.TheAgent(f, a);
    LP.EachAdmittedOnce(f.links[a]);
    LP.NothingIsLost(f.links[a]);
    LP.DefensiveBranchesDead(f.links[a]);
  }

  // -------------------------------------------------------------------- exact metrics

  /** How often `m` was admitted, incarnation by incarnation. */
  ghost function AdmittedCount(admitted: seq<L.Admission>, incs: nat, m: Message): nat {
    if incs == 0 then 0
    else AdmittedCount(admitted, incs - 1, m) + multiset(L.PayloadsOf(L.Of(admitted, incs - 1)))[m]
  }

  lemma OneMorePayload(of: seq<L.Admission>, x: L.Admission, m: Message)
    ensures multiset(L.PayloadsOf(of + [x]))[m] == multiset(L.PayloadsOf(of))[m] + if x.msg == m then 1 else 0
  {
    assert L.PayloadsOf(of + [x]) == L.PayloadsOf(of) + [x.msg];
  }

  lemma {:induction false} AdmittedCountAppend(admitted: seq<L.Admission>, x: L.Admission, incs: nat, m: Message)
    ensures AdmittedCount(admitted + [x], incs, m) ==
      AdmittedCount(admitted, incs, m) + if x.inc < incs && x.msg == m then 1 else 0
  {
    if incs > 0 {
      AdmittedCountAppend(admitted, x, incs - 1, m);
      L.OfAppend(admitted, x, incs - 1);
      OneMorePayload(L.Of(admitted, incs - 1), x, m);
    }
  }

  lemma {:induction false} AdmittedCountIsTotal(admitted: seq<L.Admission>, incs: nat, m: Message)
    requires forall k :: 0 <= k < |admitted| ==> admitted[k].inc < incs
    ensures AdmittedCount(admitted, incs, m) == multiset(L.PayloadsOf(admitted))[m]
  {
    if admitted == [] {
      NothingAdmitted(incs, m);
    } else {
      var front, x := admitted[..|admitted| - 1], admitted[|admitted| - 1];
      assert admitted == front + [x];
      AdmittedCountIsTotal(front, incs, m);
      AdmittedCountAppend(front, x, incs, m);
      assert L.PayloadsOf(admitted) == L.PayloadsOf(front) + [x.msg];
    }
  }

  lemma {:induction false} NothingAdmitted(incs: nat, m: Message)
    ensures AdmittedCount([], incs, m) == 0
  {
    if incs > 0 {
      NothingAdmitted(incs - 1, m);
    }
  }

  /**
   Exact merge. Of each incarnation's log a prefix is admitted, in order and once; and of the deltas
   for a run in those prefixes every one is merged, dropped after the freeze, or still to be
   applied, exactly once. A settled run's summary is what was merged.
   */
  lemma ExactMerge(f: Fleet, agents: set<AgentId>, limits: UplinkWindow.Limits, steps: seq<FleetStep>,
                   r: RunId, a: AgentId, d: int)
    requires Reached(f, agents, limits, steps) && r in f.runs && a in f.links
    ensures forall i :: 0 <= i < |f.links[a].logs| ==> L.PayloadsOf(L.Of(f.links[a].admitted, i)) <= f.links[a].logs[i]
    ensures f.runs[r].agg[R.Sample(a, d)] + f.runs[r].late[R.Sample(a, d)] + f.links[a].unapplied[Metrics(r, d)]
         == AdmittedCount(f.links[a].admitted, |f.links[a].logs|, Metrics(r, d))
    ensures R.IsTerminal(f.runs[r].state) <==> f.runs[r].summary.Some?
    ensures f.runs[r].summary.Some? ==> f.runs[r].summary.value == f.runs[r].agg
  {
    ReachedInv(f, agents, limits, steps);
    AP.TheAgent(f, a);
    assert PairInv(f, r, a);
    assert R.RunInv(f.runs[r]);
    var l := f.links[a];
    assert L.AdmissionInv(l) && L.SeatInv(l);
    AdmittedCountIsTotal(l.admitted, |l.logs|, Metrics(r, d));
    assert (l.applied + l.unapplied)[Metrics(r, d)] == l.applied[Metrics(r, d)] + l.unapplied[Metrics(r, d)];
    forall i | 0 <= i < |l.logs| ensures L.PayloadsOf(L.Of(l.admitted, i)) <= l.logs[i] {
      var n := |L.Of(l.admitted, i)|;
      assert L.PayloadsOf(L.Stamped(i, l.logs[i][..n])) == l.logs[i][..n];
    }
  }

  /** A settled run's verdict, summary and contributors never change again, whatever arrives late. */
  lemma FrozenForever(f: Fleet, agents: set<AgentId>, limits: UplinkWindow.Limits, steps: seq<FleetStep>,
                      more: seq<FleetStep>, r: RunId)
    requires Reached(f, agents, limits, steps) && r in f.runs && R.IsTerminal(f.runs[r].state)
    ensures var g := After(f, more);
      && r in g.runs && g.runs[r].state == f.runs[r].state
      && f.runs[r].summary.Some? && g.runs[r].summary == f.runs[r].summary
      && g.runs[r].contributing == f.runs[r].contributing
      && (forall a :: a in f.runs[r].contributing <==> exists s :: s in f.runs[r].summary.value && s.agent == a)
  {
    ReachedInv(f, agents, limits, steps);
    AfterKeeps(f, more);
    assert R.RunInv(f.runs[r]);
    assert R.ContributingInv(f.runs[r].contributing, f.runs[r].agg);
  }

  /** A committed, unsettled run whose agents have all reported or been lost always has a check or a finalization owed. */
  lemma CompletionIsWatched(f: Fleet, agents: set<AgentId>, limits: UplinkWindow.Limits, steps: seq<FleetStep>, r: RunId)
    requires Reached(f, agents, limits, steps) && r in f.runs
    requires R.Committed(f.runs[r]) && !R.IsTerminal(f.runs[r].state)
    requires forall a :: a in f.runs[r].roster ==> a in f.runs[r].done || a in f.runs[r].lost
    ensures f.runs[r].checks > 0 || f.runs[r].finals != multiset{} || f.runs[r].sweep.Some?
  {
    ReachedInv(f, agents, limits, steps);
    assert R.RunInv(f.runs[r]);
    assert R.AllReported(f.runs[r].roster, f.runs[r].done, f.runs[r].lost);
  }
}
