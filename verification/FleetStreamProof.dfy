/** Steps on the streams: dialling, writing, receiving, reading and crashing keep the fleet's invariant. */
module FleetStreamProof {
  import opened Basics
  import L = Delivery
  import LP = DeliveryProof
  import R = RunLifecycle
  import S = AgentSlot
  import E = AgentExclusive
  import opened Fleet
  import opened FleetInv
  import opened FleetAgentProof

  /** `later` is `down` with nothing but acknowledgements added. */
  ghost predicate OnlyAcksAdded(down: seq<L.Downlink>, later: seq<L.Downlink>) {
    && |down| <= |later| && (forall k :: 0 <= k < |down| ==> later[k] == down[k])
    && (forall k :: |down| <= k < |later| ==> later[k].UplinkAck?)
  }

  ghost predicate SameOrders(conns: seq<L.Conn>, conns': seq<L.Conn>) {
    && |conns'| == |conns|
    && (forall c :: 0 <= c < |conns| ==>
      conns'[c].inc == conns[c].inc && conns'[c].claim == conns[c].claim && OnlyAcksAdded(conns[c].down, conns'[c].down))
  }

  lemma SameOrdersOk(a: AgentId, conns: seq<L.Conn>, conns': seq<L.Conn>, over: set<RunId>, runs: Runs)
    requires ConnsOk(a, conns, runs) && LatestQueueOk(conns, over, runs) && SameOrders(conns, conns')
    ensures ConnsOk(a, conns', runs) && LatestQueueOk(conns', over, runs)
  {
    forall c | 0 <= c < |conns'| ensures ConnOk(a, conns'[c], runs) {
      assert ConnOk(a, conns[c], runs);
      assert OnlyAcksAdded(conns[c].down, conns'[c].down);
    }
    if conns' != [] {
      assert OnlyAcksAdded(conns[|conns| - 1].down, conns'[|conns| - 1].down);
    }
  }

  /** A step that moves frames and acknowledgements but no orders and no log. */
  lemma LinkStep(f: Fleet, a: AgentId, l: L.Link)
    requires Inv(f) && Has(f, a)
    requires L.LinkInv(l) && l.logs == f.links[a].logs && l.applied == f.links[a].applied
    requires SameOrders(f.links[a].conns, l.conns) && SameSeat(f.links[a].seat, l.seat)
    ensures Inv(f.(links := f.links[a := l]))
  {
    TheAgent(f, a);
    WithLink(a, f.links[a], l, f.procs[a], f.active[a], f.runs);
    OneAgent(f, a, l, f.procs[a]);
    Unchanged(f.procs, a);
  }

  lemma WithLink(a: AgentId, l: L.Link, l': L.Link, p: S.Proc, act: Option<RunId>, runs: Runs)
    requires AgentInv(a, l, p, act, runs)
    requires L.LinkInv(l') && l'.logs == l.logs && SameOrders(l.conns, l'.conns) && SameSeat(l.seat, l'.seat)
    ensures AgentInv(a, l', p, act, runs)
  {
    SameOrdersOk(a, l.conns, l'.conns, p.over, runs);
  }

  lemma StreamOrders(l: L.Link)
    ensures L.CanAttach(l) ==> SameOrders(l.conns, L.Attach(l).conns)
    ensures L.CanSend(l) ==> SameOrders(l.conns, L.Send(l).conns)
    ensures L.OnStream(l) ==> SameOrders(l.conns, L.Heartbeat(l).conns)
    ensures SameOrders(l.conns, l.conns)
  {
  }

  lemma ReceiveOrders(l: L.Link, c: nat, lost: bool)
    requires L.CanReceive(l, c)
    ensures SameOrders(l.conns, L.Receive(l, c, lost).conns) && SameSeat(l.seat, L.Receive(l, c, lost).seat)
  {
  }

  lemma AttachStep(f: Fleet, a: AgentId)
    requires Inv(f) && Has(f, a) && L.CanAttach(f.links[a])
    ensures Inv(f.(links := f.links[a := L.Attach(f.links[a])]))
  {
    TheLink(f, a);
    LP.AttachKeeps(f.links[a]);
    StreamOrders(f.links[a]);
    LinkStep(f, a, L.Attach(f.links[a]));
  }

  lemma LoseStep(f: Fleet, a: AgentId)
    requires Inv(f) && Has(f, a)
    ensures Inv(f.(links := f.links[a := L.Detach(f.links[a])]))
  {
    TheLink(f, a);
    LP.DetachKeeps(f.links[a]);
    StreamOrders(f.links[a]);
    LinkStep(f, a, L.Detach(f.links[a]));
  }

  lemma WriteStep(f: Fleet, a: AgentId)
    requires Inv(f) && Has(f, a) && L.CanSend(f.links[a])
    ensures Inv(f.(links := f.links[a := L.Send(f.links[a])]))
  {
    TheLink(f, a);
    LP.SendKeeps(f.links[a]);
    StreamOrders(f.links[a]);
    LinkStep(f, a, L.Send(f.links[a]));
  }

  lemma BeatStep(f: Fleet, a: AgentId)
    requires Inv(f) && Has(f, a) && L.OnStream(f.links[a])
    ensures Inv(f.(links := f.links[a := L.Heartbeat(f.links[a])]))
  {
    TheLink(f, a);
    LP.HeartbeatKeeps(f.links[a]);
    StreamOrders(f.links[a]);
    LinkStep(f, a, L.Heartbeat(f.links[a]));
  }

  lemma TheLink(f: Fleet, a: AgentId)
    requires Inv(f) && Has(f, a)
    ensures L.LinkInv(f.links[a])
  {
    TheAgent(f, a);
  }

  lemma ReceiveStep(f: Fleet, a: AgentId, c: nat, lost: bool)
    requires Inv(f) && Has(f, a) && L.CanReceive(f.links[a], c)
    ensures Inv(f.(links := f.links[a := L.Receive(f.links[a], c, lost)]))
  {
    TheLink(f, a);
    LP.ReceiveKeeps(f.links[a], c, lost);
    ReceiveOrders(f.links[a], c, lost);
    LinkStep(f, a, L.Receive(f.links[a], c, lost));
  }

  // ------------------------------------------------------------- dialling and crashing

  lemma DialOk(a: AgentId, l: L.Link, p: S.Proc, act: Option<RunId>, runs: Runs)
    requires AgentInv(a, l, p, act, runs)
    ensures AgentInv(a, L.Open(l, Claim(p)), p, act, runs)
  {
    LP.OpenKeeps(l, Claim(p));
    var conns := L.Open(l, Claim(p)).conns;
    forall c | 0 <= c < |conns| ensures ConnOk(a, conns[c], runs) {
      if c < |l.conns| {
        assert ConnOk(a, l.conns[c], runs);
      }
    }
  }

  lemma DialStep(f: Fleet, a: AgentId)
    requires Inv(f) && Has(f, a)
    ensures Inv(f.(links := f.links[a := L.Open(f.links[a], Claim(f.procs[a]))]))
  {
    TheAgent(f, a);
    DialOk(a, f.links[a], f.procs[a], f.active[a], f.runs);
    OneAgent(f, a, L.Open(f.links[a], Claim(f.procs[a])), f.procs[a]);
    Unchanged(f.procs, a);
  }

  /** A fresh process has no evidence and no memory; what the old one logged stays. */
  lemma CrashOk(a: AgentId, l: L.Link, p: S.Proc, act: Option<RunId>, runs: Runs)
    requires AgentInv(a, l, p, act, runs)
    ensures AgentInv(a, L.Restart(l), S.IDLE, act, runs)
  {
    LP.RestartKeeps(l);
    E.IdleIsExclusive(DoomedRuns(runs));
    var logs := L.Restart(l).logs;
    forall i, k | 0 <= i < |logs| && 0 <= k < |logs[i]| ensures MsgOk(a, logs[i][k], runs) {
      assert logs[i] == l.logs[i];
    }
  }

  lemma CrashStep(f: Fleet, a: AgentId)
    requires Inv(f) && Has(f, a)
    ensures Inv(f.(links := f.links[a := L.Restart(f.links[a])], procs := f.procs[a := S.IDLE]))
  {
    TheAgent(f, a);
    CrashOk(a, f.links[a], f.procs[a], f.active[a], f.runs);
    OneAgent(f, a, L.Restart(f.links[a]), S.IDLE);
  }
}
