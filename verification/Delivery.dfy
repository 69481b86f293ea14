/**
 Acknowledged uplink delivery for one agent id.

 A `Link` joins the agent process (its window and the stream it currently serves), every
 stream it ever opened (frames in flight both ways, in order) and the controller's seat
 for this agent id (live session, incarnation, deduplication cursor). Streams may die,
 acknowledgements may be dropped and the process may restart at any step.
 */
module Delivery {
  import opened Basics
  import opened UplinkWindow

  datatype Frame = Data(seqNo: nat, msg: Message) | Beat

  datatype Downlink = UplinkAck(upto: nat) | Deliver(order: Order)

  /** One stream. `session` is set when the controller reads its `Register`; `claim` is the run named there. */
  datatype Conn = Conn(
    inc: nat,
    claim: Option<RunId>,
    session: Option<nat>,
    up: seq<Frame>,
    down: seq<Downlink>)

  /** The controller's record of this agent id. */
  datatype Seat = Seat(inc: nat, session: nat, conn: nat, lastSeq: nat)

  datatype Admission = Admission(inc: nat, seqNo: nat, msg: Message)

  datatype Link = Link(
    limits: Limits,
    window: Window,
    attached: Option<nat>,
    conns: seq<Conn>,
    seat: Option<Seat>,
    counter: nat,
    // What each incarnation enqueued; the last one is the live process.
    logs: seq<seq<Message>>,
    // Admissions in the order the controller committed them.
    admitted: seq<Admission>,
    // Payloads admitted but not applied yet, and payloads applied.
    unapplied: multiset<Message>,
    applied: multiset<Message>)

  function Fresh(limits: Limits): Link {
    Link(limits, EMPTY, None, [], None, 0, [[]], [], multiset{}, multiset{})
  }

  function Live(l: Link): nat
    requires l.logs != []
  {
    |l.logs| - 1
  }

  // ------------------------------------------------------------- controller side

  datatype Decision = Apply | Duplicate | Stale

  /** The outcome of fencing one inbound frame: the decision, the new seat, and the cursor to acknowledge. */
  datatype Admitted = Admitted(decision: Decision, seat: Option<Seat>, ack: Option<nat>)

  function Admit(seat: Option<Seat>, session: nat, seqNo: nat): Admitted {
    if seat.None? || seat.value.session != session then Admitted(Stale, seat, None)
    else
      var s := seat.value;
      if seqNo == 0 then Admitted(Apply, seat, if s.lastSeq > 0 then Some(s.lastSeq) else None)
      else if seqNo <= s.lastSeq then Admitted(Duplicate, seat, Some(s.lastSeq))
      else Admitted(Apply, Some(s.(lastSeq := seqNo)), Some(seqNo))
  }

  function Register(seat: Option<Seat>, inc: nat, session: nat, conn: nat): Seat {
    var lastSeq := if seat.Some? && seat.value.inc == inc then seat.value.lastSeq else 0;
    Seat(inc, session, conn, lastSeq)
  }

  // ---------------------------------------------------------------------- steps

  function FrameSeq(f: Frame): nat {
    match f case Data(n, _) => n case Beat => 0
  }

  predicate CanEnqueue(l: Link, m: Message, size: nat) {
    l.logs != [] && Push(l.window, l.limits, m, size).Accepted?
  }

  /** A producer's message enters the window and the process's log. */
  function Enqueue(l: Link, m: Message, size: nat): Link
    requires CanEnqueue(l, m, size)
  {
    l.(window := Push(l.window, l.limits, m, size).window,
       logs := l.logs[Live(l) := l.logs[Live(l)] + [m]])
  }

  /** The reconnect loop dials a new stream and queues `Register` on it. */
  function Open(l: Link, claim: Option<RunId>): Link
    requires l.logs != []
  {
    l.(attached := None, conns := l.conns + [Conn(Live(l), claim, None, [], [])])
  }

  /** The controller reads `Register`. An incarnation older than the seated one never registers again. */
  predicate CanSeat(l: Link, c: nat, session: nat) {
    && c < |l.conns| && l.conns[c].session.None?
    && session > l.counter
    && (l.seat.Some? ==> l.conns[c].inc >= l.seat.value.inc)
  }

  function TakeSeat(l: Link, c: nat, session: nat): Link
    requires CanSeat(l, c, session)
  {
    l.(seat := Some(Register(l.seat, l.conns[c].inc, session, c)),
       counter := session,
       conns := l.conns[c := l.conns[c].(session := Some(session))])
  }

  /** The agent learns its latest stream is open: a new writer replays from the oldest unacknowledged message. */
  predicate CanAttach(l: Link) {
    && l.logs != [] && l.conns != [] && l.attached.None?
    && l.conns[|l.conns| - 1].inc == Live(l) && l.conns[|l.conns| - 1].session.Some?
  }

  function Attach(l: Link): Link
    requires CanAttach(l)
  {
    l.(attached := Some(|l.conns| - 1), window := Rewind(l.window))
  }

  function Detach(l: Link): Link {
    l.(attached := None)
  }

  predicate OnStream(l: Link) {
    l.attached.Some? && l.attached.value < |l.conns|
  }

  function PutUp(l: Link, c: nat, f: Frame): Link
    requires c < |l.conns|
  {
    l.(conns := l.conns[c := l.conns[c].(up := l.conns[c].up + [f])])
  }

  function PutDown(l: Link, c: nat, d: Downlink): Link
    requires c < |l.conns|
  {
    l.(conns := l.conns[c := l.conns[c].(down := l.conns[c].down + [d])])
  }

  predicate CanSend(l: Link) {
    OnStream(l) && NextUnsent(l.window, l.window.epoch).Some?
  }

  /** The session's writer puts its next unwritten entry on the wire. */
  function Send(l: Link): Link
    requires CanSend(l)
  {
    var e := NextUnsent(l.window, l.window.epoch).value;
    PutUp(l.(window := Advance(l.window, l.window.epoch)), l.attached.value, Data(e.seqNo, e.msg))
  }

  function Heartbeat(l: Link): Link
    requires OnStream(l)
  {
    PutUp(l, l.attached.value, Beat)
  }

  predicate CanReceive(l: Link, c: nat) {
    c < |l.conns| && l.conns[c].session.Some? && l.conns[c].up != []
  }

  /** The controller's pump takes one frame; `lost` drops the acknowledgement it would send. */
  function Receive(l: Link, c: nat, lost: bool): Link
    requires CanReceive(l, c)
  {
    var conn := l.conns[c];
    var f := conn.up[0];
    var r := Admit(l.seat, conn.session.value, FrameSeq(f));
    var down := if r.ack.Some? && !lost then conn.down + [UplinkAck(r.ack.value)] else conn.down;
    var l1 := l.(conns := l.conns[c := conn.(up := conn.up[1..], down := down)], seat := r.seat);
    if r.decision.Apply? && f.Data? && r.seat.Some? then
      var a := Admission(r.seat.value.inc, f.seqNo, f.msg);
      l1.(admitted := l.admitted + [a], unapplied := l.unapplied + multiset{f.msg})
    else l1
  }

  /** The payload half, outside the lock: any admitted message may be the next one applied. */
  function ApplyOne(l: Link, m: Message): Link
    requires m in l.unapplied
  {
    l.(unapplied := l.unapplied - multiset{m}, applied := l.applied + multiset{m})
  }

  /** The controller queues an order on the live session's stream. */
  function SendOrder(l: Link, o: Order): Link {
    if l.seat.Some? && l.seat.value.conn < |l.conns| then PutDown(l, l.seat.value.conn, Deliver(o)) else l
  }

  predicate CanRead(l: Link) {
    OnStream(l) && l.conns[l.attached.value].down != []
  }

  function Head(l: Link): Downlink
    requires CanRead(l)
  {
    l.conns[l.attached.value].down[0]
  }

  function PopDown(l: Link): Link
    requires CanRead(l)
  {
    var c := l.attached.value;
    l.(conns := l.conns[c := l.conns[c].(down := l.conns[c].down[1..])])
  }

  /** The session loop reads one downlink message; an acknowledgement retires window entries. */
  function Read(l: Link): Link
    requires CanRead(l)
  {
    match Head(l)
    case UplinkAck(n) => PopDown(l).(window := Ack(l.window, n))
    case Deliver(_) => PopDown(l)
  }

  function Shut(l: Link): Link {
    l.(window := Close(l.window))
  }

  /** The process dies; its successor starts an empty window under a new incarnation. */
  function Restart(l: Link): Link {
    l.(window := EMPTY, attached := None, logs := l.logs + [[]])
  }

  // ------------------------------------------------------------------ invariant

  /** The sequence a receiver standing at `k` has reached once all of `frames` are in. */
  function Reach(frames: seq<Frame>, k: nat): nat
    ensures Reach(frames, k) >= k
  {
    if frames == [] then k else Reach(frames[1..], Max(k, FrameSeq(frames[0])))
  }

  /** A receiver standing at `k` never meets a gap in `frames`. */
  ghost predicate GapFree(frames: seq<Frame>, k: nat) {
    frames != [] ==> FrameSeq(frames[0]) <= k + 1 && GapFree(frames[1..], Max(k, FrameSeq(frames[0])))
  }

  lemma {:induction false} GapFreeAppend(frames: seq<Frame>, f: Frame, k: nat)
    requires GapFree(frames, k) && FrameSeq(f) <= Reach(frames, k) + 1
    ensures GapFree(frames + [f], k)
    ensures Reach(frames + [f], k) == Max(Reach(frames, k), FrameSeq(f))
  {
    if frames == [] {
      assert frames + [f] == [f];
      assert [f][1..] == [];
    } else {
      assert (frames + [f])[1..] == frames[1..] + [f];
      GapFreeAppend(frames[1..], f, Max(k, FrameSeq(frames[0])));
    }
  }

  /** The admissions made under one incarnation, in order. */
  function Of(admitted: seq<Admission>, inc: nat): seq<Admission> {
    if admitted == [] then []
    else
      var rest, last := Of(admitted[..|admitted| - 1], inc), admitted[|admitted| - 1];
      if last.inc == inc then rest + [last] else rest
  }

  lemma OfAppend(admitted: seq<Admission>, a: Admission, inc: nat)
    ensures Of(admitted + [a], inc) == if a.inc == inc then Of(admitted, inc) + [a] else Of(admitted, inc)
  {
    assert (admitted + [a])[..|admitted|] == admitted;
  }

  function PayloadsOf(admitted: seq<Admission>): seq<Message> {
    seq(|admitted|, k requires 0 <= k < |admitted| => admitted[k].msg)
  }

  /** `log` stamped with sequence numbers 1, 2, 3, ... */
  function Stamped(inc: nat, log: seq<Message>): seq<Admission> {
    seq(|log|, k requires 0 <= k < |log| => Admission(inc, k + 1, log[k]))
  }

  ghost predicate WindowInv(l: Link) {
    && l.logs != []
    && WellFormed(l.window) && WithinBudget(l.window, l.limits)
    && l.window.nextSeq == |l.logs[Live(l)]|
    && (forall i :: 0 <= i < |l.window.pending| ==>
      l.window.pending[i].msg == l.logs[Live(l)][Retired(l.window) + i])
  }

  /** The live process's cursor at the controller: zero until it has registered. */
  function Cursor(l: Link): nat
    requires l.logs != []
  {
    if l.seat.Some? && l.seat.value.inc == Live(l) then l.seat.value.lastSeq else 0
  }

  ghost predicate SeatInv(l: Link)
    requires l.logs != []
  {
    l.seat.Some? ==>
      var s := l.seat.value;
      && s.inc < |l.logs| && s.lastSeq <= |l.logs[s.inc]|
      && s.conn < |l.conns|
      && l.conns[s.conn].session == Some(s.session)
      && l.conns[s.conn].inc == s.inc
  }

  ghost predicate FrameOk(l: Link, inc: nat, f: Frame) {
    f.Data? ==> inc < |l.logs| && 1 <= f.seqNo <= |l.logs[inc]| && f.msg == l.logs[inc][f.seqNo - 1]
  }

  ghost predicate ConnInv(l: Link, c: nat)
    requires l.logs != [] && c < |l.conns|
  {
    var conn := l.conns[c];
    && conn.inc <= Live(l)
    && (conn.session.None? ==> conn.up == [] && conn.down == [])
    && (conn.session.Some? ==> conn.session.value <= l.counter)
    && (forall k :: 0 <= k < |conn.up| ==> FrameOk(l, conn.inc, conn.up[k]))
    && (conn.inc == Live(l) ==>
      forall k :: 0 <= k < |conn.down| && conn.down[k].UplinkAck? ==> conn.down[k].upto <= Cursor(l))
  }

  ghost predicate ConnsInv(l: Link)
    requires l.logs != []
  {
    && (forall c :: 0 <= c < |l.conns| ==> ConnInv(l, c))
    && (forall c, d :: 0 <= c < d < |l.conns| && l.conns[c].session.Some? ==> l.conns[c].session != l.conns[d].session)
    && (l.attached.Some? ==>
      && 0 < |l.conns| && l.attached.value == |l.conns| - 1
      && l.conns[l.attached.value].inc == Live(l)
      && l.conns[l.attached.value].session.Some?)
  }

  /** What replay guarantees: nothing unadmitted is retired, and the live stream has no gap at its cursor. */
  ghost predicate ReplayInv(l: Link)
    requires l.logs != [] && SeatInv(l)
  {
    && Retired(l.window) <= Cursor(l)
    && (l.seat.Some? ==>
      var s := l.seat.value;
      && GapFree(l.conns[s.conn].up, s.lastSeq)
      && (l.attached == Some(s.conn) ==> Position(l.window) <= Reach(l.conns[s.conn].up, s.lastSeq)))
  }

  ghost predicate AdmissionInv(l: Link)
    requires l.logs != []
  {
    && (forall i :: 0 <= i < |l.logs| ==>
      && |Of(l.admitted, i)| <= |l.logs[i]|
      && Of(l.admitted, i) == Stamped(i, l.logs[i][..|Of(l.admitted, i)|]))
    && (l.seat.None? ==> l.admitted == [])
    && (l.seat.Some? ==> |Of(l.admitted, l.seat.value.inc)| == l.seat.value.lastSeq)
    && (forall k :: 0 <= k < |l.admitted| ==> l.seat.Some? && l.admitted[k].inc <= l.seat.value.inc)
    && multiset(PayloadsOf(l.admitted)) == l.applied + l.unapplied
  }

  ghost predicate LinkInv(l: Link) {
    && WindowInv(l) && SeatInv(l) && ConnsInv(l) && ReplayInv(l) && AdmissionInv(l)
  }
}
