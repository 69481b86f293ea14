/** Every step of a `Link` keeps its invariant, and what that gives over whole runs. */
module DeliveryProof {
  import opened Basics
  import opened UplinkWindow
  import opened Delivery

  lemma FreshKeeps(limits: Limits)
    ensures LinkInv(Fresh(limits))
  {
  }

  lemma EnqueueKeeps(l: Link, m: Message, size: nat)
    requires LinkInv(l) && CanEnqueue(l, m, size)
    ensures LinkInv(Enqueue(l, m, size))
  {
    PushKeeps(l.window, l.limits, m, size);
    var l' := Enqueue(l, m, size);
    forall c | 0 <= c < |l'.conns| ensures ConnInv(l', c) {
      assert ConnInv(l, c);
    }
    forall i | 0 <= i < |l'.logs|
      ensures Of(l'.admitted, i) == Stamped(i, l'.logs[i][..|Of(l'.admitted, i)|])
    {
      assert l'.logs[i][..|Of(l.admitted, i)|] == l.logs[i][..|Of(l.admitted, i)|];
    }
  }

  lemma OpenKeeps(l: Link, claim: Option<RunId>)
    requires LinkInv(l)
    ensures LinkInv(Open(l, claim))
  {
    var l' := Open(l, claim);
    forall c | 0 <= c < |l'.conns| ensures ConnInv(l', c) {
      if c < |l.conns| { assert ConnInv(l, c); }
    }
  }

  lemma TakeSeatKeeps(l: Link, c: nat, session: nat)
    requires LinkInv(l) && CanSeat(l, c, session)
    ensures LinkInv(TakeSeat(l, c, session))
  {
    var l' := TakeSeat(l, c, session);
    var inc := l.conns[c].inc;
    assert ConnInv(l, c);
    if l.seat.None? || l.seat.value.inc != inc {
      NoneOf(l.admitted, inc);
    }
    forall d | 0 <= d < |l'.conns|
      ensures ConnInv(l', d)
      ensures d != c ==> l'.conns[d].session != Some(session)
    {
      assert ConnInv(l, d);
    }
  }

  lemma {:induction false} NoneOf(admitted: seq<Admission>, inc: nat)
    requires forall k :: 0 <= k < |admitted| ==> admitted[k].inc != inc
    ensures Of(admitted, inc) == []
  {
    if admitted != [] {
      NoneOf(admitted[..|admitted| - 1], inc);
    }
  }

  /** Retiring admitted entries or moving the writer's cursor is safe as long as the live stream covers it. */
  lemma WindowChange(l: Link, w: Window, attached: Option<nat>)
    requires LinkInv(l)
    requires WellFormed(w) && WithinBudget(w, l.limits) && w.nextSeq == l.window.nextSeq
    requires Retired(l.window) <= Retired(w) <= Cursor(l)
    requires w.pending == l.window.pending[Retired(w) - Retired(l.window)..]
    requires attached == l.attached || (CanAttach(l) && attached == Some(|l.conns| - 1))
    requires l.seat.Some? && attached == Some(l.seat.value.conn) ==>
      Position(w) <= Reach(l.conns[l.seat.value.conn].up, l.seat.value.lastSeq)
    ensures LinkInv(l.(window := w, attached := attached))
  {
    var l' := l.(window := w, attached := attached);
    forall c | 0 <= c < |l'.conns| ensures ConnInv(l', c) {
      assert ConnInv(l, c);
    }
  }

  lemma AttachKeeps(l: Link)
    requires LinkInv(l) && CanAttach(l)
    ensures LinkInv(Attach(l))
  {
    assert l.window.pending[0..] == l.window.pending;
    WindowChange(l, Rewind(l.window), Some(|l.conns| - 1));
  }

  lemma DetachKeeps(l: Link)
    requires LinkInv(l)
    ensures LinkInv(Detach(l))
  {
    var l' := Detach(l);
    forall c | 0 <= c < |l'.conns| ensures ConnInv(l', c) {
      assert ConnInv(l, c);
    }
  }

  lemma PutUpKeeps(l: Link, f: Frame)
    requires LinkInv(l) && OnStream(l)
    requires FrameOk(l, Live(l), f) && FrameSeq(f) <= Position(l.window) + 1
    ensures LinkInv(PutUp(l, l.attached.value, f))
    ensures var l', c := PutUp(l, l.attached.value, f), l.attached.value;
      l.seat.Some? && l.seat.value.conn == c ==> FrameSeq(f) <= Reach(l'.conns[c].up, l.seat.value.lastSeq)
  {
    var l', c := PutUp(l, l.attached.value, f), l.attached.value;
    if l.seat.Some? && l.seat.value.conn == c {
      GapFreeAppend(l.conns[c].up, f, l.seat.value.lastSeq);
    }
    forall d | 0 <= d < |l'.conns| ensures ConnInv(l', d) {
      assert ConnInv(l, d);
    }
  }

  lemma SendKeeps(l: Link)
    requires LinkInv(l) && CanSend(l)
    ensures LinkInv(Send(l))
  {
    var w := Advance(l.window, l.window.epoch);
    var e := NextUnsent(l.window, l.window.epoch).value;
    PutUpKeeps(l, Data(e.seqNo, e.msg));
    assert w.pending[0..] == w.pending;
    WindowChange(PutUp(l, l.attached.value, Data(e.seqNo, e.msg)), w, l.attached);
  }

  lemma HeartbeatKeeps(l: Link)
    requires LinkInv(l) && OnStream(l)
    ensures LinkInv(Heartbeat(l))
  {
    PutUpKeeps(l, Beat);
  }

  lemma SendOrderKeeps(l: Link, o: Order)
    requires LinkInv(l)
    ensures LinkInv(SendOrder(l, o))
  {
    var l' := SendOrder(l, o);
    forall d | 0 <= d < |l'.conns| ensures ConnInv(l', d) {
      assert ConnInv(l, d);
    }
  }

  lemma PopDownKeeps(l: Link)
    requires LinkInv(l) && CanRead(l)
    ensures LinkInv(PopDown(l))
  {
    var l' := PopDown(l);
    forall d | 0 <= d < |l'.conns| ensures ConnInv(l', d) {
      assert ConnInv(l, d);
    }
  }

  lemma ReadKeeps(l: Link)
    requires LinkInv(l) && CanRead(l)
    ensures LinkInv(Read(l))
  {
    PopDownKeeps(l);
    if Head(l).UplinkAck? {
      ReadAckKeeps(l, Head(l).upto);
    }
  }

  lemma ReadAckKeeps(l: Link, n: nat)
    requires LinkInv(l) && CanRead(l) && Head(l) == UplinkAck(n)
    ensures LinkInv(PopDown(l).(window := Ack(l.window, n)))
  {
    PopDownKeeps(l);
    assert ConnInv(l, l.attached.value);
    AckKeeps(l.window, l.limits, n);
    WindowChange(PopDown(l), Ack(l.window, n), l.attached);
  }

  lemma ShutKeeps(l: Link)
    requires LinkInv(l)
    ensures LinkInv(Shut(l))
  {
    var l' := Shut(l);
    forall d | 0 <= d < |l'.conns| ensures ConnInv(l', d) {
      assert ConnInv(l, d);
    }
  }

  lemma RestartKeeps(l: Link)
    requires LinkInv(l)
    ensures LinkInv(Restart(l))
  {
    var l' := Restart(l);
    forall d | 0 <= d < |l'.conns| ensures ConnInv(l', d) {
      assert ConnInv(l, d);
    }
    NoneOf(l.admitted, Live(l'));
  }

  lemma ApplyOneKeeps(l: Link, m: Message)
    requires LinkInv(l) && m in l.unapplied
    ensures LinkInv(ApplyOne(l, m))
  {
    var l' := ApplyOne(l, m);
    forall d | 0 <= d < |l'.conns| ensures ConnInv(l', d) {
      assert ConnInv(l, d);
    }
  }

  // -------------------------------------------------------------- receiving a frame

  lemma PopUpKeeps(l: Link, c: nat, down: seq<Downlink>, seat: Option<Seat>)
    requires LinkInv(l) && CanReceive(l, c)
    requires down == l.conns[c].down ||
      (seat.Some? && seat.value.conn == c && down == l.conns[c].down + [UplinkAck(seat.value.lastSeq)])
    requires (seat == l.seat && (l.seat.Some? && l.seat.value.conn == c ==> FrameSeq(l.conns[c].up[0]) <= l.seat.value.lastSeq)) ||
      (l.seat.Some? && l.seat.value.conn == c && FrameSeq(l.conns[c].up[0]) >= l.seat.value.lastSeq
        && seat == Some(l.seat.value.(lastSeq := FrameSeq(l.conns[c].up[0]))))
    ensures var l' := l.(conns := l.conns[c := l.conns[c].(up := l.conns[c].up[1..], down := down)], seat := seat);
      WindowInv(l') && SeatInv(l') && ConnsInv(l') && ReplayInv(l')
  {
    var l' := l.(conns := l.conns[c := l.conns[c].(up := l.conns[c].up[1..], down := down)], seat := seat);
    assert ConnInv(l, c);
    assert FrameOk(l, l.conns[c].inc, l.conns[c].up[0]);
    forall d | 0 <= d < |l'.conns| ensures ConnInv(l', d) {
      assert ConnInv(l, d);
    }
  }

  /** The admission made for a fresh frame is exactly the next entry of its incarnation's log. */
  lemma AdmissionExtends(l: Link, a: Admission, i: nat)
    requires LinkInv(l) && l.seat.Some? && i < |l.logs|
    requires a.inc == l.seat.value.inc && a.seqNo == l.seat.value.lastSeq + 1 <= |l.logs[a.inc]|
    requires a.msg == l.logs[a.inc][a.seqNo - 1]
    ensures |Of(l.admitted + [a], i)| <= |l.logs[i]|
    ensures Of(l.admitted + [a], i) == Stamped(i, l.logs[i][..|Of(l.admitted + [a], i)|])
  {
    OfAppend(l.admitted, a, i);
    if i == a.inc {
      var k := |Of(l.admitted, i)|;
      assert Stamped(i, l.logs[i][..k + 1]) == Stamped(i, l.logs[i][..k]) + [a];
    }
  }

  /** The stream invariants do not look at the admission record. */
  lemma RecordFrame(l: Link, admitted: seq<Admission>, unapplied: multiset<Message>)
    requires WindowInv(l) && SeatInv(l) && ConnsInv(l) && ReplayInv(l)
    ensures var l' := l.(admitted := admitted, unapplied := unapplied);
      WindowInv(l') && SeatInv(l') && ConnsInv(l') && ReplayInv(l')
  {
    var l' := l.(admitted := admitted, unapplied := unapplied);
    forall c | 0 <= c < |l'.conns| ensures ConnInv(l', c) {
      assert ConnInv(l, c);
    }
  }

  lemma AdmitKeeps(l: Link, l': Link, a: Admission)
    requires LinkInv(l) && l.seat.Some? && l'.logs == l.logs
    requires a.inc == l.seat.value.inc && a.seqNo == l.seat.value.lastSeq + 1 <= |l.logs[a.inc]|
    requires a.msg == l.logs[a.inc][a.seqNo - 1]
    requires l'.admitted == l.admitted + [a]
    requires l'.unapplied == l.unapplied + multiset{a.msg} && l'.applied == l.applied
    requires l'.seat == Some(l.seat.value.(lastSeq := a.seqNo))
    ensures AdmissionInv(l')
  {
    forall i | 0 <= i < |l.logs|
      ensures |Of(l'.admitted, i)| <= |l.logs[i]|
      ensures Of(l'.admitted, i) == Stamped(i, l.logs[i][..|Of(l'.admitted, i)|])
    {
      AdmissionExtends(l, a, i);
    }
    OfAppend(l.admitted, a, a.inc);
    assert PayloadsOf(l'.admitted) == PayloadsOf(l.admitted) + [a.msg];
  }

  /** A frame from the live session is at most one past the cursor. */
  lemma LiveFrameIsNext(l: Link, c: nat)
    requires LinkInv(l) && CanReceive(l, c)
    requires l.seat.Some? && l.conns[c].session == Some(l.seat.value.session)
    ensures c == l.seat.value.conn
    ensures FrameSeq(l.conns[c].up[0]) <= l.seat.value.lastSeq + 1
    ensures FrameOk(l, l.seat.value.inc, l.conns[c].up[0])
  {
    assert ConnInv(l, c);
  }

  lemma ReceiveKeeps(l: Link, c: nat, lost: bool)
    requires LinkInv(l) && CanReceive(l, c)
    ensures LinkInv(Receive(l, c, lost))
  {
    var l', conn := Receive(l, c, lost), l.conns[c];
    var f := conn.up[0];
    var r := Admit(l.seat, conn.session.value, FrameSeq(f));
    if !r.decision.Stale? {
      LiveFrameIsNext(l, c);
    }
    var down := l'.conns[c].down;
    PopUpKeeps(l, c, down, r.seat);
    var l1 := l.(conns := l.conns[c := conn.(up := conn.up[1..], down := down)], seat := r.seat);
    if r.decision.Apply? && f.Data? {
      var a := Admission(r.seat.value.inc, f.seqNo, f.msg);
      RecordFrame(l1, l'.admitted, l'.unapplied);
      AdmitKeeps(l, l', a);
    }
  }

  // ------------------------------------------------------------------- whole runs

  datatype LinkStep =
    | DoEnqueue(msg: Message, size: nat)
    | DoOpen(claim: Option<RunId>)
    | DoSeat(conn: nat, session: nat)
    | DoAttach
    | DoDetach
    | DoSend
    | DoHeartbeat
    | DoReceive(conn: nat, lost: bool)
    | DoApply(payload: Message)
    | DoOrder(order: Order)
    | DoRead
    | DoShut
    | DoRestart

  /** One step; a step that is not enabled changes nothing. */
  function Do(l: Link, step: LinkStep): (l': Link)
    ensures l.logs != [] ==> l'.logs != []
  {
    match step
    case DoEnqueue(m, size) => if CanEnqueue(l, m, size) then Enqueue(l, m, size) else l
    case DoOpen(claim) => if l.logs != [] then Open(l, claim) else l
    case DoSeat(c, session) => if CanSeat(l, c, session) then TakeSeat(l, c, session) else l
    case DoAttach => if CanAttach(l) then Attach(l) else l
    case DoDetach => Detach(l)
    case DoSend => if CanSend(l) then Send(l) else l
    case DoHeartbeat => if OnStream(l) then Heartbeat(l) else l
    case DoReceive(c, lost) => if CanReceive(l, c) then Receive(l, c, lost) else l
    case DoApply(m) => if m in l.unapplied then ApplyOne(l, m) else l
    case DoOrder(o) => SendOrder(l, o)
    case DoRead => if CanRead(l) then Read(l) else l
    case DoShut => Shut(l)
    case DoRestart => Restart(l)
  }

  function Run(limits: Limits, steps: seq<LinkStep>): (l: Link)
    ensures l.logs != []
  {
    if steps == [] then Fresh(limits) else Do(Run(limits, steps[..|steps| - 1]), steps[|steps| - 1])
  }

  lemma StepKeeps(l: Link, step: LinkStep)
    requires LinkInv(l)
    ensures LinkInv(Do(l, step))
  {
    match step
    case DoEnqueue(m, size) => if CanEnqueue(l, m, size) { EnqueueKeeps(l, m, size); }
    case DoOpen(claim) => OpenKeeps(l, claim);
    case DoSeat(c, session) => if CanSeat(l, c, session) { TakeSeatKeeps(l, c, session); }
    case DoAttach => if CanAttach(l) { AttachKeeps(l); }
    case DoDetach => DetachKeeps(l);
    case DoSend => if CanSend(l) { SendKeeps(l); }
    case DoHeartbeat => if OnStream(l) { HeartbeatKeeps(l); }
    case DoReceive(c, lost) => if CanReceive(l, c) { ReceiveKeeps(l, c, lost); }
    case DoApply(m) => if m in l.unapplied { ApplyOneKeeps(l, m); }
    case DoOrder(o) => SendOrderKeeps(l, o);
    case DoRead => if CanRead(l) { ReadKeeps(l); }
    case DoShut => ShutKeeps(l);
    case DoRestart => RestartKeeps(l);
  }

  lemma {:induction false} RunKeeps(limits: Limits, steps: seq<LinkStep>)
    ensures LinkInv(Run(limits, steps))
  {
    if steps == [] {
      FreshKeeps(limits);
    } else {
      RunKeeps(limits, steps[..|steps| - 1]);
      StepKeeps(Run(limits, steps[..|steps| - 1]), steps[|steps| - 1]);
    }
  }

  /** Per incarnation the admissions are 1, 2, 3, ... of its log, and each is applied once or still owed. */
  ghost predicate AdmittedOnce(l: Link) {
    && (forall i :: 0 <= i < |l.logs| ==>
      && |Of(l.admitted, i)| <= |l.logs[i]|
      && forall k :: 0 <= k < |Of(l.admitted, i)| ==> Of(l.admitted, i)[k] == Admission(i, k + 1, l.logs[i][k]))
    && (forall k :: 0 <= k < |l.admitted| ==> l.admitted[k].inc < |l.logs|)
    && multiset(PayloadsOf(l.admitted)) == l.applied + l.unapplied
  }

  lemma EachAdmittedOnce(l: Link)
    requires LinkInv(l)
    ensures AdmittedOnce(l)
  {
    forall i, k | 0 <= i < |l.logs| && 0 <= k < |Of(l.admitted, i)|
      ensures Of(l.admitted, i)[k] == Admission(i, k + 1, l.logs[i][k])
    {
      assert Of(l.admitted, i) == Stamped(i, l.logs[i][..|Of(l.admitted, i)|]);
    }
  }

  /** Exactly once, over every schedule of one agent's link. */
  lemma ExactlyOnce(limits: Limits, steps: seq<LinkStep>)
    ensures AdmittedOnce(Run(limits, steps))
  {
    RunKeeps(limits, steps);
    EachAdmittedOnce(Run(limits, steps));
  }

  function Payloads(entries: seq<Entry>): seq<Message> {
    seq(|entries|, k requires 0 <= k < |entries| => entries[k].msg)
  }

  lemma LiveAdmissions(l: Link)
    requires LinkInv(l)
    ensures |Of(l.admitted, Live(l))| == Cursor(l) <= |l.logs[Live(l)]|
    ensures PayloadsOf(Of(l.admitted, Live(l))) == l.logs[Live(l)][..Cursor(l)]
  {
    if l.seat.None? || l.seat.value.inc != Live(l) {
      NoneOf(l.admitted, Live(l));
    }
  }

  lemma PendingIsTail(l: Link, k: nat)
    requires LinkInv(l) && Retired(l.window) <= k <= |l.logs[Live(l)]|
    ensures k - Retired(l.window) <= |l.window.pending|
    ensures Payloads(l.window.pending[k - Retired(l.window)..]) == l.logs[Live(l)][k..]
  {
  }

  /** The live log is the admitted prefix followed by a suffix of the window. */
  ghost predicate Lossless(l: Link)
    requires l.logs != []
  {
    var admitted := PayloadsOf(Of(l.admitted, Live(l)));
    var skip := |admitted| - Retired(l.window);
    && 0 <= skip <= |l.window.pending|
    && l.logs[Live(l)] == admitted + Payloads(l.window.pending[skip..])
  }

  lemma Rejoin(log: seq<Message>, k: nat, front: seq<Message>, back: seq<Message>)
    requires k <= |log| && front == log[..k] && back == log[k..]
    ensures log == front + back
  {
  }

  lemma NothingIsLost(l: Link)
    requires LinkInv(l)
    ensures Lossless(l)
  {
    var k := Cursor(l);
    LiveAdmissions(l);
    PendingIsTail(l, k);
    Rejoin(l.logs[Live(l)], k, PayloadsOf(Of(l.admitted, Live(l))), Payloads(l.window.pending[k - Retired(l.window)..]));
  }

  /** No loss: every message the live process enqueued is admitted or still in its window, in order. */
  lemma NoLoss(limits: Limits, steps: seq<LinkStep>)
    ensures Run(limits, steps).logs != [] && Lossless(Run(limits, steps))
  {
    RunKeeps(limits, steps);
    NothingIsLost(Run(limits, steps));
  }

  /** No live frame skips a number, and no acknowledgement goes beyond what was sent. */
  ghost predicate BranchesDead(l: Link) {
    && (forall c: nat :: CanReceive(l, c) && l.seat.Some? && l.conns[c].session == Some(l.seat.value.session) ==>
      FrameSeq(l.conns[c].up[0]) <= l.seat.value.lastSeq + 1)
    && (CanRead(l) && Head(l).UplinkAck? ==> Head(l).upto <= l.window.nextSeq)
  }

  lemma DefensiveBranchesDead(l: Link)
    requires LinkInv(l)
    ensures BranchesDead(l)
  {
    forall c: nat | CanReceive(l, c) && l.seat.Some? && l.conns[c].session == Some(l.seat.value.session)
      ensures FrameSeq(l.conns[c].up[0]) <= l.seat.value.lastSeq + 1
    {
      LiveFrameIsNext(l, c);
    }
    if CanRead(l) {
      assert ConnInv(l, l.attached.value);
    }
  }

  /** Neither defensive branch is ever taken, in any schedule of one agent's link. */
  lemma DefensiveBranchesUnreachable(limits: Limits, steps: seq<LinkStep>)
    ensures BranchesDead(Run(limits, steps))
  {
    RunKeeps(limits, steps);
    DefensiveBranchesDead(Run(limits, steps));
  }

  /** A superseded stream is fenced: its frames change neither the seat, nor the record, nor any acknowledgement. */
  lemma StaleStreamIsFenced(limits: Limits, steps: seq<LinkStep>, c: nat, lost: bool)
    requires CanReceive(Run(limits, steps), c)
    requires var l := Run(limits, steps); l.seat.None? || l.seat.value.conn != c
    ensures var l := Run(limits, steps);
      var l' := Receive(l, c, lost);
      && l'.seat == l.seat && l'.admitted == l.admitted && l'.unapplied == l.unapplied
      && (forall d :: 0 <= d < |l.conns| ==> l'.conns[d].down == l.conns[d].down)
  {
    RunKeeps(limits, steps);
  }
}
