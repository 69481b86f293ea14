/**
 Control commands to a started run: the controller sends one message to each agent,
 collects their acknowledgements under a fresh command id and reports success only when
 every addressed agent has applied the command.
 */
module ControlBarrier {
  import opened Basics

  datatype Verb = Stop | Kill | Pause | Resume | Scale

  /** The value is an agent's share of a scale command, 0 for every other command. */
  datatype Control = Control(command: nat, agent: AgentId, verb: Verb, scenario: string, value: nat)

  datatype Ack = Ack(command: nat, agent: AgentId, verb: Verb, scenario: string, applied: bool)

  datatype Pending = Pending(expected: set<AgentId>, responses: map<AgentId, bool>, verb: Verb, scenario: string)

  // ----------------------------------------------------------------------- shares

  function Sum(xs: seq<nat>): nat {
    if xs == [] then 0 else Sum(xs[..|xs| - 1]) + xs[|xs| - 1]
  }

  function ScaleShares(total: nat, agents: nat): seq<nat> {
    seq(agents, i requires 0 <= i < agents => total / agents + if i < total % agents then 1 else 0)
  }

  function Min(a: nat, b: nat): nat {
    if a < b then a else b
  }

  lemma {:induction false} SharesUpTo(total: nat, agents: nat, k: nat)
    requires k <= agents && agents > 0
    ensures Sum(ScaleShares(total, agents)[..k]) == k * (total / agents) + Min(k, total % agents)
  {
    var shares := ScaleShares(total, agents);
    if k == 0 {
      assert shares[..0] == [];
    } else {
      SharesUpTo(total, agents, k - 1);
      assert shares[..k][..k - 1] == shares[..k - 1];
      assert (k - 1) * (total / agents) + total / agents == k * (total / agents);
    }
  }

  /** The shares split the total exactly, differ by at most one, and the larger ones come first. */
  lemma SharesSplitTheTotal(total: nat, agents: nat)
    requires agents > 0
    ensures |ScaleShares(total, agents)| == agents
    ensures Sum(ScaleShares(total, agents)) == total
    ensures forall i, j :: 0 <= i < j < agents ==>
      ScaleShares(total, agents)[j] <= ScaleShares(total, agents)[i] <= ScaleShares(total, agents)[j] + 1
  {
    var shares := ScaleShares(total, agents);
    SharesUpTo(total, agents, agents);
    assert shares[..agents] == shares;
    assert agents * (total / agents) + total % agents == total;
  }

  // --------------------------------------------------------------------- protocol

  datatype Outcome = Succeeded | Rejected | TimedOut

  /** How far `control` has come with one command. */
  datatype Progress = Addressing(sent: nat) | Decided(outcome: Outcome)

  datatype Request = Request(targets: seq<AgentId>, verb: Verb, scenario: string, total: Option<nat>)

  datatype Desk = Desk(
    counter: nat,
    requests: map<nat, Request>,
    progress: map<nat, Progress>,
    pending: map<nat, Pending>,
    wire: set<Control>,
    acks: set<Ack>,
    // Every command message an agent has carried out.
    applied: set<Control>)

  const IDLE := Desk(0, map[], map[], map[], {}, {}, {})

  datatype DeskStep =
    | Ask(targets: seq<AgentId>, verb: Verb, scenario: string, total: Option<nat>)
    | Send(command: nat, delivered: bool)
    | Handle(control: Control, ok: bool)
    | Answer(ack: Ack)
    | LoseControl(control: Control)
    | LoseAck(ack: Ack)
    | Complete(command: nat)
    | Expire(command: nat)

  predicate Distinct(s: seq<AgentId>) {
    forall i, j :: 0 <= i < j < |s| ==> s[i] != s[j]
  }

  function Members(s: seq<AgentId>): set<AgentId> {
    set a | a in s
  }

  /** The message for target `i` of a request. */
  function Message(command: nat, r: Request, i: nat): Control
    requires i < |r.targets|
  {
    var value := if r.total.Some? then ScaleShares(r.total.value, |r.targets|)[i] else 0;
    Control(command, r.targets[i], r.verb, r.scenario, value)
  }

  /** Every target has been sent its message and the outcome is still open. */
  predicate Waiting(d: Desk, c: nat) {
    && c in d.requests && c in d.progress && d.progress[c] == Addressing(|d.requests[c].targets|)
    && c in d.pending
  }

  predicate Enabled(d: Desk, step: DeskStep) {
    match step
    case Ask(targets, _, _, _) => targets != [] && Distinct(targets)
    case Send(c, _) =>
      && c in d.requests && c in d.progress && d.progress[c].Addressing?
      && d.progress[c].sent < |d.requests[c].targets|
    case Handle(m, _) => m in d.wire
    case Answer(a) => a in d.acks
    case LoseControl(m) => m in d.wire
    case LoseAck(a) => a in d.acks
    case Complete(c) => Waiting(d, c) && |d.pending[c].responses| >= |d.pending[c].expected|
    case Expire(c) => Waiting(d, c)
  }

  function Opened(d: Desk, targets: seq<AgentId>, verb: Verb, scenario: string, total: Option<nat>): Desk {
    var c := d.counter + 1;
    d.(counter := c,
       requests := d.requests[c := Request(targets, verb, scenario, total)],
       progress := d.progress[c := Addressing(0)],
       pending := d.pending[c := Pending(Members(targets), map[], verb, scenario)])
  }

  function Respond(pending: map<nat, Pending>, c: nat, a: AgentId, ok: bool): map<nat, Pending> {
    if c in pending then pending[c := pending[c].(responses := pending[c].responses[a := ok])] else pending
  }

  /** Send to the next target; a send that fails is recorded as that agent's refusal. */
  function SendNext(d: Desk, c: nat, delivered: bool): Desk
    requires Enabled(d, Send(c, delivered))
  {
    var r := d.requests[c];
    var i := d.progress[c].sent;
    var m := Message(c, r, i);
    d.(progress := d.progress[c := Addressing(i + 1)],
       wire := if delivered then d.wire + {m} else d.wire,
       pending := if delivered then d.pending else Respond(d.pending, c, m.agent, false))
  }

  /** An acknowledgement counts only from an addressed agent and for the same command. */
  function TakeAnswer(d: Desk, a: Ack): Desk {
    var d := d.(acks := d.acks - {a});
    if a.command in d.pending then
      var p := d.pending[a.command];
      if a.agent in p.expected && a.verb == p.verb && a.scenario == p.scenario then
        d.(pending := Respond(d.pending, a.command, a.agent, a.applied))
      else d
    else d
  }

  function Decide(d: Desk, c: nat, outcome: Outcome): Desk {
    d.(progress := d.progress[c := Decided(outcome)], pending := d.pending - {c})
  }

  function Verdict(p: Pending): Outcome {
    if forall a :: a in p.responses ==> p.responses[a] then Succeeded else Rejected
  }

  function Next(d: Desk, step: DeskStep): Desk
    requires Enabled(d, step)
  {
    match step
    case Ask(targets, verb, scenario, total) => Opened(d, targets, verb, scenario, total)
    case Send(c, delivered) => SendNext(d, c, delivered)
    case Handle(m, ok) =>
      d.(wire := d.wire - {m},
         applied := if ok then d.applied + {m} else d.applied,
         acks := d.acks + {Ack(m.command, m.agent, m.verb, m.scenario, ok)})
    case Answer(a) => TakeAnswer(d, a)
    case LoseControl(m) => d.(wire := d.wire - {m})
    case LoseAck(a) => d.(acks := d.acks - {a})
    case Complete(c) => Decide(d, c, Verdict(d.pending[c]))
    case Expire(c) => Decide(d, c, TimedOut)
  }

  /** The state after a schedule; a step that is not enabled changes nothing. */
  function After(steps: seq<DeskStep>): Desk {
    if steps == [] then IDLE
    else
      var d := After(steps[..|steps| - 1]);
      var step := steps[|steps| - 1];
      if Enabled(d, step) then Next(d, step) else d
  }

  // -------------------------------------------------------------------- invariant

  /** `m` is the message of one of the command's targets. */
  ghost predicate IsMessage(requests: map<nat, Request>, m: Control) {
    && m.command in requests
    && exists i :: 0 <= i < |requests[m.command].targets| && m == Message(m.command, requests[m.command], i)
  }

  /** Agent `a` has applied its own message of command `c`. */
  ghost predicate HasApplied(requests: map<nat, Request>, applied: set<Control>, c: nat, a: AgentId)
    requires c in requests
  {
    forall i :: 0 <= i < |requests[c].targets| && requests[c].targets[i] == a ==> Message(c, requests[c], i) in applied
  }

  predicate RequestOk(d: Desk, c: nat)
    requires c in d.requests
  {
    && 0 < c <= d.counter && d.requests[c].targets != [] && Distinct(d.requests[c].targets)
    && c in d.progress
    && (c in d.pending <==> d.progress[c].Addressing?)
  }

  ghost predicate PendingOk(d: Desk, c: nat)
    requires c in d.pending
  {
    var p := d.pending[c];
    && c in d.requests
    && p.expected == Members(d.requests[c].targets) && p.responses.Keys <= p.expected
    && p.verb == d.requests[c].verb && p.scenario == d.requests[c].scenario
    && (forall a :: a in p.responses && p.responses[a] ==> HasApplied(d.requests, d.applied, c, a))
  }

  ghost predicate AckOk(d: Desk, a: Ack) {
    && a.command in d.requests && a.agent in d.requests[a.command].targets
    && (a.applied ==> HasApplied(d.requests, d.applied, a.command, a.agent))
  }

  /** Success was reported only with every target's share applied. */
  ghost predicate OutcomeOk(d: Desk, c: nat)
    requires c in d.requests
  {
    c in d.progress && d.progress[c] == Decided(Succeeded) ==>
      forall a :: a in d.requests[c].targets ==> HasApplied(d.requests, d.applied, c, a)
  }

  ghost predicate DeskInv(d: Desk) {
    && d.progress.Keys == d.requests.Keys
    && (forall c :: c in d.requests ==> RequestOk(d, c))
    && (forall m :: m in d.wire ==> IsMessage(d.requests, m))
    && (forall a :: a in d.acks ==> AckOk(d, a))
    && (forall c :: c in d.pending ==> PendingOk(d, c))
    && (forall c :: c in d.requests ==> OutcomeOk(d, c))
  }

  lemma AskKeeps(d: Desk, targets: seq<AgentId>, verb: Verb, scenario: string, total: Option<nat>)
    requires DeskInv(d) && targets != [] && Distinct(targets)
    ensures DeskInv(Opened(d, targets, verb, scenario, total))
  {
    var d' := Opened(d, targets, verb, scenario, total);
    assert d'.counter !in d.requests;
    forall m | m in d'.wire ensures IsMessage(d'.requests, m) {
      assert IsMessage(d.requests, m);
    }
    forall c | c in d'.pending ensures PendingOk(d', c) {
      if c != d'.counter {
        assert PendingOk(d, c);
      }
    }
    forall c | c in d'.requests ensures RequestOk(d', c) && OutcomeOk(d', c) {
      if c != d'.counter {
        assert RequestOk(d, c) && OutcomeOk(d, c);
      }
    }
  }

  lemma SendKeeps(d: Desk, c: nat, delivered: bool)
    requires DeskInv(d) && Enabled(d, Send(c, delivered))
    ensures DeskInv(SendNext(d, c, delivered))
  {
    var d' := SendNext(d, c, delivered);
    assert RequestOk(d, c) && PendingOk(d, c);
    var m := Message(c, d.requests[c], d.progress[c].sent);
    assert IsMessage(d'.requests, m);
    forall c' | c' in d'.pending ensures PendingOk(d', c') {
      assert PendingOk(d, c');
    }
    forall c' | c' in d'.requests ensures RequestOk(d', c') && OutcomeOk(d', c') {
      assert RequestOk(d, c') && OutcomeOk(d, c');
    }
  }

  /** An agent's own message is determined by the command and its place among the targets. */
  lemma HandleKeeps(d: Desk, m: Control, ok: bool)
    requires DeskInv(d) && m in d.wire
    ensures DeskInv(Next(d, Handle(m, ok)))
  {
    var d' := Next(d, Handle(m, ok));
    assert IsMessage(d.requests, m) && RequestOk(d, m.command);
    assert AckOk(d', Ack(m.command, m.agent, m.verb, m.scenario, ok));
    forall a | a in d'.acks ensures AckOk(d', a) {
      if a in d.acks { assert AckOk(d, a); }
    }
    forall c | c in d'.pending ensures PendingOk(d', c) {
      assert PendingOk(d, c);
    }
    forall c | c in d'.requests ensures RequestOk(d', c) && OutcomeOk(d', c) {
      assert RequestOk(d, c) && OutcomeOk(d, c);
    }
  }

  lemma AnswerKeeps(d: Desk, a: Ack)
    requires DeskInv(d) && a in d.acks
    ensures DeskInv(TakeAnswer(d, a))
  {
    var d' := TakeAnswer(d, a);
    assert AckOk(d, a);
    forall c | c in d'.pending ensures PendingOk(d', c) {
      assert PendingOk(d, c);
    }
    forall c | c in d'.requests ensures RequestOk(d', c) && OutcomeOk(d', c) {
      assert RequestOk(d, c) && OutcomeOk(d, c);
    }
  }

  lemma SubsetOfSameSize<T>(a: set<T>, b: set<T>)
    requires a <= b && |a| >= |b|
    ensures a == b
  {
    assert b == a + (b - a);
  }

  /** The count of responses reaches the count of targets exactly when every target has answered. */
  lemma CompleteMeansEveryoneAnswered(d: Desk, c: nat)
    requires DeskInv(d) && c in d.pending
    ensures |d.pending[c].responses| >= |d.pending[c].expected| <==>
      d.pending[c].responses.Keys == Members(d.requests[c].targets)
  {
    assert PendingOk(d, c);
    assert |d.pending[c].responses| == |d.pending[c].responses.Keys|;
    if |d.pending[c].responses| >= |d.pending[c].expected| {
      SubsetOfSameSize(d.pending[c].responses.Keys, d.pending[c].expected);
    }
  }

  lemma DecideKeeps(d: Desk, c: nat, outcome: Outcome)
    requires DeskInv(d) && Waiting(d, c)
    requires outcome == Succeeded ==>
      Verdict(d.pending[c]) == Succeeded && d.pending[c].responses.Keys == Members(d.requests[c].targets)
    ensures DeskInv(Decide(d, c, outcome))
  {
    var d' := Decide(d, c, outcome);
    assert PendingOk(d, c);
    forall c' | c' in d'.pending ensures PendingOk(d', c') {
      assert PendingOk(d, c');
    }
    forall c' | c' in d'.requests ensures RequestOk(d', c') && OutcomeOk(d', c') {
      assert RequestOk(d, c') && OutcomeOk(d, c');
    }
  }

  lemma StepKeeps(d: Desk, step: DeskStep)
    requires DeskInv(d) && Enabled(d, step)
    ensures DeskInv(Next(d, step))
  {
    match step
    case Ask(targets, verb, scenario, total) => AskKeeps(d, targets, verb, scenario, total);
    case Send(c, delivered) => SendKeeps(d, c, delivered);
    case Handle(m, ok) => HandleKeeps(d, m, ok);
    case Answer(a) => AnswerKeeps(d, a);
    case LoseControl(m) => FewerMessagesKeep(d, Next(d, step));
    case LoseAck(a) => FewerMessagesKeep(d, Next(d, step));
    case Complete(c) =>
      CompleteMeansEveryoneAnswered(d, c);
      DecideKeeps(d, c, Verdict(d.pending[c]));
    case Expire(c) => DecideKeeps(d, c, TimedOut);
  }

  lemma FewerMessagesKeep(d: Desk, d': Desk)
    requires DeskInv(d) && d' == d.(wire := d'.wire, acks := d'.acks) && d'.wire <= d.wire && d'.acks <= d.acks
    ensures DeskInv(d')
  {
    forall a | a in d'.acks ensures AckOk(d', a) {
      assert AckOk(d, a);
    }
    forall c | c in d'.pending ensures PendingOk(d', c) {
      assert PendingOk(d, c);
    }
    forall c | c in d'.requests ensures RequestOk(d', c) && OutcomeOk(d', c) {
      assert RequestOk(d, c) && OutcomeOk(d, c);
    }
  }

  lemma {:induction false} AfterKeeps(steps: seq<DeskStep>)
    ensures DeskInv(After(steps))
  {
    if steps != [] {
      var d := After(steps[..|steps| - 1]);
      AfterKeeps(steps[..|steps| - 1]);
      if Enabled(d, steps[|steps| - 1]) {
        StepKeeps(d, steps[|steps| - 1]);
      }
    }
  }

  /** The values of a command's messages, in target order. */
  function Values(c: nat, r: Request): seq<nat> {
    seq(|r.targets|, i requires 0 <= i < |r.targets| => Message(c, r, i).value)
  }

  /**
   Whatever messages and acknowledgements are lost, delayed or reordered, a command that
   reports success has been applied by every agent it addressed, each with the value meant
   for it; for a scale command those values add up to the requested total.
   */
  lemma SuccessMeansEveryAgentApplied(steps: seq<DeskStep>, c: nat)
    requires c in After(steps).requests && c in After(steps).progress && After(steps).progress[c] == Decided(Succeeded)
    ensures var d := After(steps);
      forall i :: 0 <= i < |d.requests[c].targets| ==> Message(c, d.requests[c], i) in d.applied
    ensures var r := After(steps).requests[c]; r.total.Some? ==> Sum(Values(c, r)) == r.total.value
  {
    AfterKeeps(steps);
    var d := After(steps);
    var r := d.requests[c];
    assert RequestOk(d, c) && OutcomeOk(d, c);
    forall i | 0 <= i < |r.targets| ensures Message(c, r, i) in d.applied {
      assert r.targets[i] in r.targets;
      assert HasApplied(d.requests, d.applied, c, r.targets[i]);
    }
    if r.total.Some? {
      assert Values(c, r) == ScaleShares(r.total.value, |r.targets|);
      SharesSplitTheTotal(r.total.value, |r.targets|);
    }
  }
}
