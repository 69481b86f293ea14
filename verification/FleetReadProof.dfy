/** Reading the downlink: what an order may do to a process, given what orders may be in flight. */
module FleetReadProof {
  import opened Basics
  import L = Delivery
  import LP = DeliveryProof
  import R = RunLifecycle
  import S = AgentSlot
  import E = AgentExclusive
  import opened Fleet
  import opened FleetInv
  import opened FleetAgentProof

  lemma HandleAssignment(a: AgentId, inc: nat, p: S.Proc, runs: Runs, r: RunId, i: nat, n: nat)
    requires ProcOk(a, inc, p, runs) && E.ExclusiveInv(p, DoomedRuns(runs))
    requires OrderOk(a, inc, Assignment(r, i, n), runs) && (r in p.over ==> IsDoomed(runs, r))
    ensures ProcOk(a, inc, S.OnAssignment(p, r, i, n), runs)
    ensures E.ExclusiveInv(S.OnAssignment(p, r, i, n), DoomedRuns(runs))
    ensures S.OnAssignment(p, r, i, n).over == p.over
  {
    E.AssignmentKeeps(p, DoomedRuns(runs), r, i, n);
    var p' := S.OnAssignment(p, r, i, n);
    forall m | m in p'.outbox ensures MsgOk(a, m, runs) {
      if m !in p.outbox { assert m == PrepFailed(r); }
    }
  }

  lemma HandleStart(a: AgentId, inc: nat, p: S.Proc, runs: Runs, r: RunId, at: int)
    requires ProcOk(a, inc, p, runs) && E.ExclusiveInv(p, DoomedRuns(runs))
    requires OrderOk(a, inc, Start(r, at), runs)
    ensures ProcOk(a, inc, S.OnStart(p, r, at), runs)
    ensures E.ExclusiveInv(S.OnStart(p, r, at), DoomedRuns(runs))
    ensures S.OnStart(p, r, at).over == p.over + {r}
  {
    E.StartKeeps(p, DoomedRuns(runs), r, at);
  }

  lemma HandleHalt(a: AgentId, inc: nat, p: S.Proc, runs: Runs, r: RunId)
    requires ProcOk(a, inc, p, runs) && E.ExclusiveInv(p, DoomedRuns(runs))
    requires OrderOk(a, inc, Halt(r), runs)
    ensures ProcOk(a, inc, S.OnHalt(p, r), runs)
    ensures E.ExclusiveInv(S.OnHalt(p, r), DoomedRuns(runs))
    ensures S.OnHalt(p, r).over == p.over + {r}
  {
    E.HaltKeeps(p, DoomedRuns(runs), r);
    var p' := S.OnHalt(p, r);
    forall m | m in p'.outbox ensures MsgOk(a, m, runs) {
      if m !in p.outbox { assert m == ControlAck(r); }
    }
  }

  lemma QueuePop(down: seq<L.Downlink>, over: set<RunId>, over': set<RunId>, runs: Runs)
    requires down != [] && QueueOk(down, over, runs)
    requires forall r :: r in over' ==> r in over || Concludes(down[0], r)
    ensures QueueOk(down[1..], over', runs)
  {
    var rest := down[1..];
    forall i, j | 0 <= i < j < |rest| && Assigns(rest[j]) && Concludes(rest[i], rest[j].order.run)
      ensures IsDoomed(runs, rest[j].order.run)
    {
      assert rest[i] == down[i + 1] && rest[j] == down[j + 1];
    }
    forall j | 0 <= j < |rest| && Assigns(rest[j]) && rest[j].order.run in over'
      ensures IsDoomed(runs, rest[j].order.run)
    {
      assert rest[j] == down[j + 1];
    }
  }

  lemma PopConns(a: AgentId, l: L.Link, over: set<RunId>, over': set<RunId>, runs: Runs)
    requires L.LinkInv(l) && L.CanRead(l)
    requires ConnsOk(a, l.conns, runs) && LatestQueueOk(l.conns, over, runs)
    requires forall r :: r in over' ==> r in over || Concludes(L.Head(l), r)
    ensures ConnsOk(a, L.Read(l).conns, runs) && LatestQueueOk(L.Read(l).conns, over', runs)
  {
    var c, conns := l.attached.value, L.Read(l).conns;
    QueuePop(l.conns[c].down, over, over', runs);
    forall d | 0 <= d < |conns| ensures ConnOk(a, conns[d], runs) {
      assert ConnOk(a, l.conns[d], runs);
    }
  }

  /** The facts about the message at the head of the stream the agent serves. */
  lemma HeadOk(a: AgentId, l: L.Link, p: S.Proc, act: Option<RunId>, runs: Runs)
    requires AgentInv(a, l, p, act, runs) && L.CanRead(l) && L.Head(l).Deliver?
    ensures OrderOk(a, L.Live(l), L.Head(l).order, runs)
    ensures L.Head(l).order.Assignment? && L.Head(l).order.run in p.over ==> IsDoomed(runs, L.Head(l).order.run)
  {
    assert ConnOk(a, l.conns[l.attached.value], runs);
    assert Assigns(L.Head(l)) == L.Head(l).order.Assignment?;
  }

  lemma HandleOk(a: AgentId, inc: nat, p: S.Proc, runs: Runs, o: Order)
    requires ProcOk(a, inc, p, runs) && E.ExclusiveInv(p, DoomedRuns(runs)) && OrderOk(a, inc, o, runs)
    requires o.Assignment? && o.run in p.over ==> IsDoomed(runs, o.run)
    ensures ProcOk(a, inc, Handle(p, o), runs) && E.ExclusiveInv(Handle(p, o), DoomedRuns(runs))
    ensures forall r :: r in Handle(p, o).over ==> r in p.over || Concludes(L.Deliver(o), r)
  {
    match o
    case Assignment(r, i, n) => HandleAssignment(a, inc, p, runs, r, i, n);
    case Start(r, at) => HandleStart(a, inc, p, runs, r, at);
    case Halt(r) => HandleHalt(a, inc, p, runs, r);
  }

  lemma ReadOk(a: AgentId, l: L.Link, p: S.Proc, act: Option<RunId>, runs: Runs)
    requires AgentInv(a, l, p, act, runs) && L.CanRead(l)
    ensures AgentInv(a, L.Read(l), if L.Head(l).Deliver? then Handle(p, L.Head(l).order) else p, act, runs)
  {
    LP.ReadKeeps(l);
    if L.Head(l).Deliver? {
      HeadOk(a, l, p, act, runs);
      HandleOk(a, L.Live(l), p, runs, L.Head(l).order);
      PopConns(a, l, p.over, Handle(p, L.Head(l).order).over, runs);
    } else {
      PopConns(a, l, p.over, p.over, runs);
    }
  }

  lemma ReadStep(f: Fleet, a: AgentId)
    requires Inv(f) && Has(f, a) && L.CanRead(f.links[a])
    ensures Inv(ReadDown(f, a))
  {
    TheAgent(f, a);
    ReadOk(a, f.links[a], f.procs[a], f.active[a], f.runs);
    var p := if L.Head(f.links[a]).Deliver? then Handle(f.procs[a], L.Head(f.links[a]).order) else f.procs[a];
    OneAgent(f, a, L.Read(f.links[a]), p);
    Unchanged(f.procs, a);
  }
}
