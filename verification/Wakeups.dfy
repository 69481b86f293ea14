/**
 Parking and waking around the uplink window.

 `ready` wakes one writer at a time and stores a permit when none waits; `room` wakes every
 producer enlisted at that moment. State changes happen under the lock, the notification
 after it, so a task that has changed the window may still owe its notification.
 */
module Wakeups {
  import opened Basics
  import opened UplinkWindow

  datatype WriterPc =
    | Spawned
    | Checking
    | Parking   // found nothing to do, about to wait
    | Parked    // in the wait list
    | Notified  // taken off the wait list, not yet running
    | Sending
    | Gone

  datatype Writer = Writer(epoch: nat, pc: WriterPc)

  /** A producer inside `enqueue`; `hit` is set once its enlisted future has been notified. */
  datatype ProducerPc = Retrying | Enlisted(hit: bool) | Refused(hit: bool) | Finished(accepted: bool)

  datatype Producer = Producer(msg: Message, size: nat, pc: ProducerPc)

  datatype Scene = Scene(
    limits: Limits,
    window: Window,
    writers: seq<Writer>,
    producers: seq<Producer>,
    waiters: seq<nat>,
    permit: bool,
    // Notifications that tasks still owe to `ready` and to `room`.
    readyOwed: nat,
    roomOwed: nat)

  function Quiet(limits: Limits): Scene {
    Scene(limits, EMPTY, [], [], [], false, 0, 0)
  }

  datatype Action =
    | Arrive(msg: Message, size: nat)
    | Enlist(producer: nat)
    | TryPush(producer: nat)
    | Wake(producer: nat)
    | PushNow(msg: Message, size: nat)
    | AckLock(n: nat)
    | RewindLock
    | CloseLock
    | NotifyReady
    | NotifyRoom
    | Check(writer: nat)
    | Park(writer: nat)
    | Resume(writer: nat)
    | SendDone(writer: nat, ok: bool)
    | AbortWriter(writer: nat)

  function SetWriter(s: Scene, i: nat, pc: WriterPc): Scene
    requires i < |s.writers|
  {
    s.(writers := s.writers[i := s.writers[i].(pc := pc)])
  }

  function SetProducer(s: Scene, i: nat, pc: ProducerPc): Scene
    requires i < |s.producers|
  {
    s.(producers := s.producers[i := s.producers[i].(pc := pc)])
  }

  /** `Notify::notify_one`. */
  function NotifyOne(s: Scene): Scene {
    if s.waiters == [] then s.(permit := true)
    else if s.waiters[0] < |s.writers| then SetWriter(s, s.waiters[0], Notified).(waiters := s.waiters[1..])
    else s.(waiters := s.waiters[1..])
  }

  /** `Notify::notify_waiters`. */
  function NotifyAll(s: Scene): Scene {
    s.(producers := seq(|s.producers|, i requires 0 <= i < |s.producers| =>
      match s.producers[i].pc
      case Enlisted(_) => s.producers[i].(pc := Enlisted(true))
      case Refused(_) => s.producers[i].(pc := Refused(true))
      case _ => s.producers[i]))
  }

  function Remove(waiters: seq<nat>, i: nat): seq<nat> {
    if waiters == [] then []
    else if waiters[0] == i then Remove(waiters[1..], i)
    else [waiters[0]] + Remove(waiters[1..], i)
  }

  /** One pass of a writer's loop body, under the lock; leaving hands the permit on. */
  function WriterChecks(s: Scene, i: nat): Scene
    requires i < |s.writers|
  {
    var e := s.writers[i].epoch;
    if s.window.epoch != e then SetWriter(s, i, Gone).(readyOwed := s.readyOwed + 1)
    else if NextUnsent(s.window, e).Some? then SetWriter(s, i, Sending).(window := Advance(s.window, e))
    else if s.window.closed then SetWriter(s, i, Gone).(readyOwed := s.readyOwed + 1)
    else SetWriter(s, i, Parking)
  }

  function ProducerPushes(s: Scene, i: nat): Scene
    requires i < |s.producers| && s.producers[i].pc.Enlisted?
  {
    var p := s.producers[i];
    match Push(s.window, s.limits, p.msg, p.size)
    case Accepted(w, _) => SetProducer(s, i, Finished(true)).(window := w, readyOwed := s.readyOwed + 1)
    case Closed => SetProducer(s, i, Finished(false))
    case Full => SetProducer(s, i, Refused(p.pc.hit))
  }

  predicate CanAbort(pc: WriterPc) {
    pc.Spawned? || pc.Parked? || pc.Notified? || pc.Sending?
  }

  /** Aborting a notified waiter forwards its notification. */
  function Aborts(s: Scene, i: nat): Scene
    requires i < |s.writers| && CanAbort(s.writers[i].pc)
  {
    match s.writers[i].pc
    case Parked => SetWriter(s, i, Gone).(waiters := Remove(s.waiters, i))
    case Notified => NotifyOne(SetWriter(s, i, Gone))
    case _ => SetWriter(s, i, Gone)
  }

  /** One action; an action that is not possible changes nothing. */
  function Act(s: Scene, a: Action): Scene {
    match a
    case Arrive(m, size) => s.(producers := s.producers + [Producer(m, size, Retrying)])
    case Enlist(i) => if i < |s.producers| && s.producers[i].pc.Retrying? then SetProducer(s, i, Enlisted(false)) else s
    case TryPush(i) => if i < |s.producers| && s.producers[i].pc.Enlisted? then ProducerPushes(s, i) else s
    case Wake(i) => if i < |s.producers| && s.producers[i].pc == Refused(true) then SetProducer(s, i, Retrying) else s
    case PushNow(m, size) =>
      var r := Push(s.window, s.limits, m, size);
      if r.Accepted? then s.(window := r.window, readyOwed := s.readyOwed + 1) else s
    case AckLock(n) =>
      var w := Ack(s.window, n);
      s.(window := w, roomOwed := if |w.pending| < |s.window.pending| then s.roomOwed + 1 else s.roomOwed)
    case RewindLock =>
      s.(window := Rewind(s.window), readyOwed := s.readyOwed + 1,
         writers := s.writers + [Writer(s.window.epoch + 1, Spawned)])
    case CloseLock => s.(window := Close(s.window), readyOwed := s.readyOwed + 1, roomOwed := s.roomOwed + 1)
    case NotifyReady => if s.readyOwed > 0 then NotifyOne(s.(readyOwed := s.readyOwed - 1)) else s
    case NotifyRoom => if s.roomOwed > 0 then NotifyAll(s.(roomOwed := s.roomOwed - 1)) else s
    case Check(i) =>
      if i < |s.writers| && (s.writers[i].pc.Checking? || s.writers[i].pc.Spawned?) then WriterChecks(s, i) else s
    case Park(i) =>
      if i < |s.writers| && s.writers[i].pc.Parking? then
        if s.permit then SetWriter(s, i, Checking).(permit := false)
        else SetWriter(s, i, Parked).(waiters := s.waiters + [i])
      else s
    case Resume(i) => if i < |s.writers| && s.writers[i].pc.Notified? then SetWriter(s, i, Checking) else s
    case SendDone(i, ok) =>
      if i < |s.writers| && s.writers[i].pc.Sending? then SetWriter(s, i, if ok then Checking else Gone) else s
    case AbortWriter(i) => if i < |s.writers| && CanAbort(s.writers[i].pc) then Aborts(s, i) else s
  }

  function Play(limits: Limits, actions: seq<Action>): Scene {
    if actions == [] then Quiet(limits) else Act(Play(limits, actions[..|actions| - 1]), actions[|actions| - 1])
  }

  // ------------------------------------------------------------------ invariant

  predicate HasWork(w: Window) {
    w.cursor < |w.pending| || w.closed
  }

  /** The writer of the current epoch. */
  predicate IsLive(s: Scene, i: nat) {
    i < |s.writers| && s.writers[i].epoch == s.window.epoch
  }

  /** A task that has taken a notification, or will pass one on. */
  predicate Carries(s: Scene, i: nat) {
    i < |s.writers| && (s.writers[i].pc.Notified? || (s.writers[i].pc.Checking? && !IsLive(s, i)))
  }

  /** A wakeup for `ready` is pending or owed. */
  ghost predicate ReadyPending(s: Scene) {
    s.permit || s.readyOwed > 0 || exists i: nat :: Carries(s, i)
  }

  ghost predicate WaitListInv(s: Scene) {
    && (s.permit ==> s.waiters == [])
    && (forall k :: 0 <= k < |s.waiters| ==> s.waiters[k] < |s.writers| && s.writers[s.waiters[k]].pc.Parked?)
    && (forall i :: 0 <= i < |s.writers| && s.writers[i].pc.Parked? ==> i in s.waiters)
    && (forall j, k :: 0 <= j < k < |s.waiters| ==> s.waiters[j] != s.waiters[k])
  }

  /** Each rewind starts one writer, so the epochs are distinct and one writer is current. */
  predicate EpochInv(s: Scene) {
    s.window.epoch == |s.writers| && forall i :: 0 <= i < |s.writers| ==> s.writers[i].epoch == i + 1
  }

  /** The current writer waits while there is work only if a wakeup is on its way. */
  ghost predicate WriterWakes(s: Scene) {
    forall i: nat :: IsLive(s, i) && (s.writers[i].pc.Parked? || s.writers[i].pc.Parking?) && HasWork(s.window) ==>
      ReadyPending(s)
  }

  /** A producer waits while there is room, or after close, only if a notification is owed. */
  predicate ProducersWake(s: Scene) {
    forall p :: 0 <= p < |s.producers| && s.producers[p].pc == Refused(false) ==>
      (IsFull(s.window, s.limits) && !s.window.closed) || s.roomOwed > 0
  }

  ghost predicate SceneInv(s: Scene) {
    && WellFormed(s.window) && WithinBudget(s.window, s.limits)
    && EpochInv(s)
    && WaitListInv(s)
    && WriterWakes(s)
    && ProducersWake(s)
  }
}
