/**
 The agent's bounded window of sequence-stamped, unacknowledged uplink messages.

 `Window` is the state guarded by the uplink's mutex and the functions below are its
 atomic sections. `Uplink` is the mutable object, each of whose methods is proved to
 perform exactly one of them.
 */
module UplinkWindow {
  import opened Basics

  datatype Entry = Entry(seqNo: nat, msg: Message, bytes: nat)

  datatype Window = Window(
    nextSeq: nat,
    pending: seq<Entry>,
    cursor: nat,
    bytes: nat,
    epoch: nat,
    closed: bool)

  datatype Limits = Limits(maxBytes: nat, maxMessages: nat)

  datatype PushResult = Accepted(window: Window, seqNo: nat) | Full | Closed

  const EMPTY := Window(0, [], 0, 0, 0, false)

  function SumBytes(entries: seq<Entry>): nat {
    if entries == [] then 0 else entries[0].bytes + SumBytes(entries[1..])
  }

  predicate IsFull(w: Window, lim: Limits) {
    w.bytes >= lim.maxBytes || |w.pending| >= lim.maxMessages
  }

  function Push(w: Window, lim: Limits, m: Message, size: nat): PushResult {
    if w.closed then Closed
    else if IsFull(w, lim) then Full
    else
      var n := w.nextSeq + 1;
      Accepted(w.(nextSeq := n, bytes := w.bytes + size, pending := w.pending + [Entry(n, m, size)]), n)
  }

  /** How many entries at the front an acknowledgement through `n` retires. */
  function Through(entries: seq<Entry>, n: nat): nat
    ensures Through(entries, n) <= |entries|
  {
    if entries == [] || entries[0].seqNo > n then 0 else 1 + Through(entries[1..], n)
  }

  /** Retire the oldest `k` entries; the cursor then names the same entry in a shorter window. */
  function Drop(w: Window, k: nat): Window
    requires k <= |w.pending|
  {
    w.(pending := w.pending[k..],
       bytes := SatSub(w.bytes, SumBytes(w.pending[..k])),
       cursor := SatSub(w.cursor, k))
  }

  function Ack(w: Window, n: nat): Window {
    if n > w.nextSeq then w
    else
      Drop(w, Through(w.pending, n))
  }

  function Rewind(w: Window): Window {
    w.(epoch := w.epoch + 1, cursor := 0)
  }

  /** One non-blocking pass of `next_unsent`: the message to write, if this epoch has one. */
  function NextUnsent(w: Window, epoch: nat): Option<Entry> {
    if w.epoch == epoch && w.cursor < |w.pending| then Some(w.pending[w.cursor]) else None
  }

  function Advance(w: Window, epoch: nat): Window {
    if NextUnsent(w, epoch).Some? then w.(cursor := w.cursor + 1) else w
  }

  function Close(w: Window): Window {
    w.(closed := true)
  }

  // ---------------------------------------------------------------- invariant

  /** How many sequence numbers have been retired: the pending ones start just above. */
  function Retired(w: Window): nat {
    SatSub(w.nextSeq, |w.pending|)
  }

  /** The sequence position the current epoch has written through. */
  function Position(w: Window): nat {
    Retired(w) + w.cursor
  }

  ghost predicate WellFormed(w: Window) {
    && |w.pending| <= w.nextSeq
    && (forall i :: 0 <= i < |w.pending| ==> w.pending[i].seqNo == Retired(w) + i + 1)
    && w.cursor <= |w.pending|
    && w.bytes == SumBytes(w.pending)
  }

  /** The byte budget is exceeded by at most the newest entry. */
  ghost predicate WithinBudget(w: Window, lim: Limits) {
    && |w.pending| <= lim.maxMessages
    && (w.pending != [] ==> SumBytes(w.pending[..|w.pending| - 1]) < lim.maxBytes)
  }

  lemma {:induction false} SumBytesAppend(a: seq<Entry>, b: seq<Entry>)
    ensures SumBytes(a + b) == SumBytes(a) + SumBytes(b)
  {
    if a == [] {
      assert a + b == b;
    } else {
      assert (a + b)[1..] == a[1..] + b;
      SumBytesAppend(a[1..], b);
    }
  }

  lemma SumBytesUpTo(entries: seq<Entry>, k: nat)
    requires k < |entries|
    ensures SumBytes(entries[..k + 1]) == SumBytes(entries[..k]) + entries[k].bytes
  {
    assert entries[..k + 1] == entries[..k] + [entries[k]];
    SumBytesAppend(entries[..k], [entries[k]]);
  }

  /** On consecutive sequence numbers the retired prefix is exactly the numbers up to `n`. */
  lemma {:induction false} ThroughIsDistance(entries: seq<Entry>, base: nat, n: nat)
    requires forall i :: 0 <= i < |entries| ==> entries[i].seqNo == base + i + 1
    ensures Through(entries, n) == if n <= base then 0 else if n - base < |entries| then n - base else |entries|
  {
    if entries != [] && entries[0].seqNo <= n {
      ThroughIsDistance(entries[1..], base + 1, n);
    }
  }

  lemma PushKeeps(w: Window, lim: Limits, m: Message, size: nat)
    requires WellFormed(w) && WithinBudget(w, lim)
    ensures match Push(w, lim, m, size)
      case Accepted(w', n) =>
        && !w.closed && !IsFull(w, lim)
        && WellFormed(w') && WithinBudget(w', lim)
        && n == w.nextSeq + 1 == w'.nextSeq
        && w'.pending == w.pending + [Entry(n, m, size)]
        && Retired(w') == Retired(w) && Position(w') == Position(w) && w'.epoch == w.epoch
      case Full => IsFull(w, lim) && !w.closed
      case Closed => w.closed
  {
    SumBytesAppend(w.pending, [Entry(w.nextSeq + 1, m, size)]);
    assert (w.pending + [Entry(w.nextSeq + 1, m, size)])[..|w.pending|] == w.pending;
  }

  /** `y` is `x` with everything through `through` retired. */
  ghost predicate Trims(x: Window, y: Window, through: nat) {
    && WellFormed(x) && WellFormed(y)
    && y.nextSeq == x.nextSeq && y.epoch == x.epoch && y.closed == x.closed
    && Retired(y) == Max(Retired(x), through)
    && y.pending == x.pending[Retired(y) - Retired(x)..]
    && Position(y) == Max(Position(x), Retired(y))
  }

  lemma TrimsCompose(w: Window, x: Window, y: Window, z: Window, m: nat, n: nat)
    requires Trims(w, x, m) && Trims(x, y, n) && Trims(w, z, Max(m, n))
    ensures y == z
    ensures m <= Retired(w) ==> x == w
  {
    var a, b := Retired(x) - Retired(w), Retired(y) - Retired(x);
    assert w.pending[a..][b..] == w.pending[a + b..];
    assert y.pending == z.pending;
  }

  lemma DropTrims(w: Window, k: nat)
    requires WellFormed(w) && k <= |w.pending|
    ensures Trims(w, Drop(w, k), Retired(w) + k)
    ensures w.bytes == Drop(w, k).bytes + SumBytes(w.pending[..k])
  {
    assert w.pending == w.pending[..k] + w.pending[k..];
    SumBytesAppend(w.pending[..k], w.pending[k..]);
  }

  lemma SumBytesMiddle(entries: seq<Entry>, k: nat, last: nat)
    requires k <= last <= |entries|
    ensures SumBytes(entries[k..][..last - k]) <= SumBytes(entries[..last])
  {
    assert entries[..last] == entries[..k] + entries[k..][..last - k];
    SumBytesAppend(entries[..k], entries[k..][..last - k]);
  }

  lemma DropWithinBudget(w: Window, lim: Limits, k: nat)
    requires WithinBudget(w, lim) && k <= |w.pending|
    ensures WithinBudget(Drop(w, k), lim)
  {
    if k < |w.pending| {
      SumBytesMiddle(w.pending, k, |w.pending| - 1);
    }
  }

  /** An acknowledgement retires exactly the sequence numbers up to `n` and frees exactly their bytes. */
  lemma AckKeeps(w: Window, lim: Limits, n: nat)
    requires WellFormed(w) && WithinBudget(w, lim)
    ensures Trims(w, Ack(w, n), if n > w.nextSeq then 0 else n)
    ensures WithinBudget(Ack(w, n), lim)
    ensures w.bytes == Ack(w, n).bytes + SumBytes(w.pending[..|w.pending| - |Ack(w, n).pending|])
  {
    if n <= w.nextSeq {
      ThroughIsDistance(w.pending, Retired(w), n);
      DropTrims(w, Through(w.pending, n));
      DropWithinBudget(w, lim, Through(w.pending, n));
    } else {
      DropTrims(w, 0);
    }
  }

  lemma AckTrims(w: Window, lim: Limits, n: nat)
    requires WellFormed(w) && WithinBudget(w, lim) && n <= w.nextSeq
    ensures Trims(w, Ack(w, n), n) && WithinBudget(Ack(w, n), lim)
  {
    AckKeeps(w, lim, n);
  }

  /** A repeated or older acknowledgement changes nothing; two acknowledgements are the larger one. */
  lemma AckIsCumulative(w: Window, lim: Limits, m: nat, n: nat)
    requires WellFormed(w) && WithinBudget(w, lim)
    requires m <= w.nextSeq && n <= w.nextSeq
    ensures Ack(Ack(w, m), n) == Ack(w, Max(m, n))
    ensures m <= Retired(w) ==> Ack(w, m) == w
  {
    AckTrims(w, lim, m);
    AckTrims(Ack(w, m), lim, n);
    AckTrims(w, lim, Max(m, n));
    TrimsCompose(w, Ack(w, m), Ack(Ack(w, m), n), Ack(w, Max(m, n)), m, n);
  }

  // ------------------------------------------------- every sequence of operations

  datatype Op =
    | DoPush(msg: Message, size: nat)
    | DoAck(n: nat)
    | DoRewind
    | DoNext(epoch: nat)
    | DoClose

  /** What the writers put on the wire, in order. */
  datatype Emission = Emission(epoch: nat, seqNo: nat)

  datatype History = History(window: Window, emitted: seq<Emission>)

  function Step(h: History, lim: Limits, op: Op): History {
    match op
    case DoPush(m, size) =>
      var r := Push(h.window, lim, m, size);
      if r.Accepted? then h.(window := r.window) else h
    case DoAck(n) => h.(window := Ack(h.window, n))
    case DoRewind => h.(window := Rewind(h.window))
    case DoNext(e) =>
      var next := NextUnsent(h.window, e);
      if next.Some?
      then History(Advance(h.window, e), h.emitted + [Emission(e, next.value.seqNo)])
      else h
    case DoClose => h.(window := Close(h.window))
  }

  function RunOps(h: History, lim: Limits, ops: seq<Op>): History {
    if ops == [] then h else Step(RunOps(h, lim, ops[..|ops| - 1]), lim, ops[|ops| - 1])
  }

  /** Some writer emission before index `j` carried `n` under `epoch`. */
  ghost predicate EmittedBefore(emitted: seq<Emission>, j: nat, epoch: nat, n: nat) {
    exists i :: 0 <= i < j && i < |emitted| && emitted[i] == Emission(epoch, n)
  }

  /** Within one epoch emissions strictly increase. */
  ghost predicate Increasing(emitted: seq<Emission>) {
    forall i, j :: 0 <= i < j < |emitted| && emitted[i].epoch == emitted[j].epoch ==>
      emitted[i].seqNo < emitted[j].seqNo
  }

  /** An epoch skips only acknowledged numbers: whatever precedes an emission was emitted in that epoch or retired. */
  ghost predicate SkipsOnlyRetired(emitted: seq<Emission>, retired: nat) {
    forall j, n: nat {:trigger EmittedBefore(emitted, j, emitted[j].epoch, n)} ::
      0 <= j < |emitted| && 1 <= n < emitted[j].seqNo ==>
        n <= retired || EmittedBefore(emitted, j, emitted[j].epoch, n)
  }

  /** The inductive part: the live epoch has accounted for every number up to its position. */
  ghost predicate LiveEpochCovered(h: History) {
    && (forall i :: 0 <= i < |h.emitted| ==>
      && h.emitted[i].epoch <= h.window.epoch
      && (h.emitted[i].epoch == h.window.epoch ==> h.emitted[i].seqNo <= Position(h.window)))
    && (forall n: nat {:trigger EmittedBefore(h.emitted, |h.emitted|, h.window.epoch, n)} ::
      1 <= n <= Position(h.window) ==>
        n <= Retired(h.window) || EmittedBefore(h.emitted, |h.emitted|, h.window.epoch, n))
  }

  ghost predicate HistoryInv(h: History, lim: Limits) {
    && WellFormed(h.window) && WithinBudget(h.window, lim)
    && LiveEpochCovered(h)
    && Increasing(h.emitted)
    && SkipsOnlyRetired(h.emitted, Retired(h.window))
  }

  lemma RetiringKeepsCoverage(h: History, w': Window)
    requires LiveEpochCovered(h) && SkipsOnlyRetired(h.emitted, Retired(h.window))
    requires w'.epoch == h.window.epoch && Retired(w') >= Retired(h.window)
    requires Position(w') == Max(Position(h.window), Retired(w'))
    ensures LiveEpochCovered(h.(window := w')) && SkipsOnlyRetired(h.emitted, Retired(w'))
  {
    var emitted := h.emitted;
    forall n: nat | 1 <= n <= Position(w') && n > Retired(w')
      ensures EmittedBefore(emitted, |emitted|, w'.epoch, n)
    {
      assert n <= Position(h.window);
      assert EmittedBefore(emitted, |emitted|, h.window.epoch, n);
    }
    forall j, n: nat | 0 <= j < |emitted| && 1 <= n < emitted[j].seqNo && n > Retired(w')
      ensures EmittedBefore(emitted, j, emitted[j].epoch, n)
    {
      assert n > Retired(h.window);
    }
  }

  lemma EmittingKeepsCoverage(h: History, lim: Limits)
    requires HistoryInv(h, lim) && h.window.cursor < |h.window.pending|
    ensures HistoryInv(Step(h, lim, DoNext(h.window.epoch)), lim)
  {
    var w, emitted, e := h.window, h.emitted, h.window.epoch;
    var h' := Step(h, lim, DoNext(e));
    var next := Position(w) + 1;
    assert h'.emitted == emitted + [Emission(e, next)];
    assert Position(h'.window) == next && Retired(h'.window) == Retired(w);
    forall n: nat | 1 <= n <= next && n > Retired(w)
      ensures EmittedBefore(h'.emitted, |h'.emitted|, e, n)
    {
      if n == next {
        assert h'.emitted[|emitted|] == Emission(e, n);
      } else {
        assert EmittedBefore(emitted, |emitted|, e, n);
        var i :| 0 <= i < |emitted| && emitted[i] == Emission(e, n);
        assert h'.emitted[i] == Emission(e, n);
      }
    }
    forall j, n: nat | 0 <= j < |h'.emitted| && 1 <= n < h'.emitted[j].seqNo && n > Retired(w)
      ensures EmittedBefore(h'.emitted, j, h'.emitted[j].epoch, n)
    {
      if j == |emitted| {
        assert EmittedBefore(emitted, |emitted|, e, n);
      } else {
        assert h'.emitted[j] == emitted[j];
        assert EmittedBefore(emitted, j, emitted[j].epoch, n);
      }
      var i :| 0 <= i < j && i < |emitted| && emitted[i] == Emission(h'.emitted[j].epoch, n);
      assert h'.emitted[i] == emitted[i];
    }
  }

  lemma StepKeepsHistory(h: History, lim: Limits, op: Op)
    requires HistoryInv(h, lim)
    ensures HistoryInv(Step(h, lim, op), lim)
    ensures Retired(h.window) <= Retired(Step(h, lim, op).window)
  {
    match op
    case DoPush(m, size) =>
      PushKeeps(h.window, lim, m, size);
      var r := Push(h.window, lim, m, size);
      if r.Accepted? {
        RetiringKeepsCoverage(h, r.window);
      }
    case DoAck(n) =>
      AckKeeps(h.window, lim, n);
      RetiringKeepsCoverage(h, Ack(h.window, n));
    case DoRewind =>
    case DoNext(e) =>
      if NextUnsent(h.window, e).Some? {
        EmittingKeepsCoverage(h, lim);
      }
    case DoClose =>
      RetiringKeepsCoverage(h, Close(h.window));
  }

  /** The window invariant, over every sequence of operations on a fresh uplink. */
  lemma {:induction false} EveryOperationSequence(lim: Limits, ops: seq<Op>)
    ensures var h := RunOps(History(EMPTY, []), lim, ops);
      && WellFormed(h.window) && WithinBudget(h.window, lim)
      && Increasing(h.emitted)
      && SkipsOnlyRetired(h.emitted, Retired(h.window))
      && HistoryInv(h, lim)
  {
    if ops != [] {
      EveryOperationSequence(lim, ops[..|ops| - 1]);
      StepKeepsHistory(RunOps(History(EMPTY, []), lim, ops[..|ops| - 1]), lim, ops[|ops| - 1]);
    }
  }

  // ------------------------------------------------------------ the mutable object

  class Uplink {
    const limits: Limits
    var nextSeq: nat
    var pending: seq<Entry>
    var cursor: nat
    var bytes: nat
    var epoch: nat
    var closed: bool

    ghost function View(): Window
      reads this
    {
      Window(nextSeq, pending, cursor, bytes, epoch, closed)
    }

    ghost predicate Valid()
      reads this
    {
      WellFormed(View()) && WithinBudget(View(), limits)
    }

    constructor (limits: Limits)
      ensures Valid() && View() == EMPTY && this.limits == limits
    {
      this.limits := limits;
      nextSeq, pending, cursor, bytes, epoch, closed := 0, [], 0, 0, 0, false;
    }

    /** A refusal leaves the sequence space, and everything else, untouched. */
    method TryPush(m: Message, size: nat) returns (r: Option<nat>)
      requires Valid()
      modifies this
      ensures Valid()
      ensures match Push(old(View()), limits, m, size)
        case Accepted(w, n) => r == Some(n) && View() == w
        case _ => r == None && View() == old(View())
    {
      PushKeeps(View(), limits, m, size);
      if closed || bytes >= limits.maxBytes || |pending| >= limits.maxMessages {
        return None;
      }
      nextSeq := nextSeq + 1;
      bytes := bytes + size;
      pending := pending + [Entry(nextSeq, m, size)];
      return Some(nextSeq);
    }

    method AckThrough(n: nat)
      requires Valid()
      modifies this
      ensures Valid() && View() == Ack(old(View()), n)
      ensures old(bytes) == bytes + SumBytes(old(pending)[..|old(pending)| - |pending|])
    {
      ghost var w := View();
      AckKeeps(w, limits, n);
      if n > nextSeq {
        return;
      }
      var freed := RetireThrough(n);
      cursor := SatSub(cursor, freed);
    }

    /** The loop of `ack`: pop the front while it is covered, freeing what admission reserved. */
    method RetireThrough(n: nat) returns (freed: nat)
      modifies this`pending, this`bytes
      ensures freed == Through(old(pending), n)
      ensures pending == old(pending)[freed..]
      ensures bytes == SatSub(old(bytes), SumBytes(old(pending)[..freed]))
    {
      ghost var all, had := pending, bytes;
      assert all[..0] == [];
      freed := 0;
      while pending != [] && pending[0].seqNo <= n
        invariant freed <= |all| && pending == all[freed..]
        invariant bytes == SatSub(had, SumBytes(all[..freed]))
        invariant Through(all, n) == freed + Through(pending, n)
        decreases |pending|
      {
        SumBytesUpTo(all, freed);
        bytes := SatSub(bytes, pending[0].bytes);
        pending := pending[1..];
        freed := freed + 1;
      }
    }

    method BeginEpoch() returns (e: nat)
      requires Valid()
      modifies this
      ensures Valid() && View() == Rewind(old(View())) && e == epoch
    {
      epoch := epoch + 1;
      cursor := 0;
      e := epoch;
    }

    /** A superseded writer is served nothing and cannot move the live writer's cursor. */
    method TakeUnsent(e: nat) returns (r: Option<Entry>)
      requires Valid()
      modifies this
      ensures Valid() && r == NextUnsent(old(View()), e) && View() == Advance(old(View()), e)
      ensures old(epoch) != e ==> r == None && View() == old(View())
    {
      if epoch != e || cursor >= |pending| {
        return None;
      }
      r := Some(pending[cursor]);
      cursor := cursor + 1;
    }

    method Shut()
      requires Valid()
      modifies this
      ensures Valid() && View() == Close(old(View()))
    {
      closed := true;
    }
  }
}
