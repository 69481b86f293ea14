/** No wakeup around the uplink window is ever lost. */
module WakeupsProof {
  import opened Basics
  import opened UplinkWindow
  import opened Wakeups

  /** Steps that leave the writers' side of the scene alone. */
  lemma WritersUntouched(s: Scene, s': Scene)
    requires SceneInv(s)
    requires s'.writers == s.writers && s'.waiters == s.waiters && s'.permit == s.permit
    requires s'.window.epoch == s.window.epoch && s'.readyOwed >= s.readyOwed
    requires HasWork(s'.window) && !HasWork(s.window) ==> s'.readyOwed > 0
    ensures EpochInv(s') && WaitListInv(s') && WriterWakes(s')
  {
    assert forall i: nat :: IsLive(s', i) == IsLive(s, i);
    assert forall i: nat :: Carries(s, i) ==> Carries(s', i);
  }

  lemma ProducersKeep(s: Scene, a: Action)
    requires SceneInv(s) && (a.Arrive? || a.Enlist? || a.Wake? || a.NotifyRoom?)
    ensures SceneInv(Act(s, a))
  {
    WritersUntouched(s, Act(s, a));
  }

  /** What the parked tasks see of a push. */
  lemma PushEffect(w: Window, lim: Limits, m: Message, size: nat)
    requires WellFormed(w) && WithinBudget(w, lim)
    ensures match Push(w, lim, m, size)
      case Accepted(w', _) =>
        && WellFormed(w') && WithinBudget(w', lim) && w'.epoch == w.epoch && w'.closed == w.closed
        && (IsFull(w, lim) ==> IsFull(w', lim))
      case Full => IsFull(w, lim) && !w.closed
      case Closed => w.closed
  {
    PushKeeps(w, lim, m, size);
  }

  lemma PushNowKeeps(s: Scene, m: Message, size: nat)
    requires SceneInv(s)
    ensures SceneInv(Act(s, PushNow(m, size)))
  {
    PushEffect(s.window, s.limits, m, size);
    WritersUntouched(s, Act(s, PushNow(m, size)));
  }

  lemma TryPushKeeps(s: Scene, i: nat)
    requires SceneInv(s)
    ensures SceneInv(Act(s, TryPush(i)))
  {
    if i < |s.producers| {
      PushEffect(s.window, s.limits, s.producers[i].msg, s.producers[i].size);
    }
    WritersUntouched(s, Act(s, TryPush(i)));
  }

  /** An acknowledgement that retires nothing frees nothing, and none leaves new work for the writer. */
  lemma AckEffect(w: Window, lim: Limits, n: nat)
    requires WellFormed(w) && WithinBudget(w, lim)
    ensures var w' := Ack(w, n);
      && WellFormed(w') && WithinBudget(w', lim) && w'.epoch == w.epoch && w'.closed == w.closed
      && (HasWork(w') ==> HasWork(w))
      && |w'.pending| <= |w.pending|
      && (|w'.pending| == |w.pending| ==> IsFull(w', lim) == IsFull(w, lim))
  {
    AckKeeps(w, lim, n);
  }

  lemma AckLockKeeps(s: Scene, n: nat)
    requires SceneInv(s)
    ensures SceneInv(Act(s, AckLock(n)))
  {
    AckEffect(s.window, s.limits, n);
    WritersUntouched(s, Act(s, AckLock(n)));
  }

  /** A rewind puts a fresh writer in charge. */
  lemma RewindKeeps(s: Scene)
    requires SceneInv(s)
    ensures SceneInv(Act(s, RewindLock))
  {
    var s' := Act(s, RewindLock);
    assert WaitListInv(s');
    assert forall i: nat :: IsLive(s', i) ==> i == |s.writers|;
  }

  lemma CloseKeeps(s: Scene)
    requires SceneInv(s)
    ensures SceneInv(Act(s, CloseLock))
  {
    WritersUntouched(s, Act(s, CloseLock));
  }

  // -------------------------------------------------------------------- writers

  /** A notification leaves a permit or a notified writer behind. */
  lemma NotifyOneWakes(s: Scene)
    requires EpochInv(s) && WaitListInv(s)
    ensures EpochInv(NotifyOne(s)) && WaitListInv(NotifyOne(s)) && ReadyPending(NotifyOne(s))
  {
    var s' := NotifyOne(s);
    if s.waiters != [] {
      var h := s.waiters[0];
      assert Carries(s', h);
      forall i | 0 <= i < |s'.writers| && s'.writers[i].pc.Parked? ensures i in s'.waiters {
        assert i in s.waiters && i != h;
      }
      forall k | 0 <= k < |s'.waiters| ensures s'.waiters[k] < |s'.writers| && s'.writers[s'.waiters[k]].pc.Parked? {
        assert s'.waiters[k] == s.waiters[k + 1] != h;
      }
    }
  }

  lemma NotifyReadyKeeps(s: Scene)
    requires SceneInv(s)
    ensures SceneInv(Act(s, NotifyReady))
  {
    if s.readyOwed > 0 {
      NotifyOneWakes(s.(readyOwed := s.readyOwed - 1));
    }
  }

  /** Moving a writer that is not in the wait list leaves the list intact. */
  lemma MovedOutsideList(s: Scene, i: nat, pc: WriterPc)
    requires EpochInv(s) && WaitListInv(s) && i < |s.writers| && !s.writers[i].pc.Parked? && !pc.Parked?
    ensures EpochInv(SetWriter(s, i, pc)) && WaitListInv(SetWriter(s, i, pc))
  {
    var s' := SetWriter(s, i, pc);
    assert i !in s.waiters;
    forall k | 0 <= k < |s.waiters| ensures s.waiters[k] < |s'.writers| && s'.writers[s.waiters[k]].pc.Parked? {
      assert s.waiters[k] != i;
    }
  }

  /** The current writer finds work, leaves on close and hands the permit on, or makes ready to wait. */
  lemma LiveCheckKeeps(s: Scene, i: nat)
    requires SceneInv(s) && IsLive(s, i) && (s.writers[i].pc.Checking? || s.writers[i].pc.Spawned?)
    ensures SceneInv(WriterChecks(s, i))
  {
    var s' := WriterChecks(s, i);
    MovedOutsideList(s, i, s'.writers[i].pc);
    assert WellFormed(s'.window) && WithinBudget(s'.window, s'.limits);
    assert forall j: nat :: IsLive(s', j) ==> j == i;
  }

  /** A superseded writer leaves and hands the permit on. */
  lemma StaleCheckKeeps(s: Scene, i: nat)
    requires SceneInv(s) && i < |s.writers| && !IsLive(s, i)
    requires s.writers[i].pc.Checking? || s.writers[i].pc.Spawned?
    ensures SceneInv(WriterChecks(s, i))
  {
    MovedOutsideList(s, i, Gone);
  }

  lemma CheckKeeps(s: Scene, i: nat)
    requires SceneInv(s)
    ensures SceneInv(Act(s, Check(i)))
  {
    if i < |s.writers| && (s.writers[i].pc.Checking? || s.writers[i].pc.Spawned?) {
      if IsLive(s, i) {
        LiveCheckKeeps(s, i);
      } else {
        StaleCheckKeeps(s, i);
      }
    }
  }

  lemma ParkKeeps(s: Scene, i: nat)
    requires SceneInv(s)
    ensures SceneInv(Act(s, Park(i)))
  {
    if i < |s.writers| && s.writers[i].pc.Parking? {
      var s' := Act(s, Park(i));
      if s.permit {
        MovedOutsideList(s, i, Checking);
        if !IsLive(s, i) { assert Carries(s', i); }
      } else {
        assert i !in s.waiters;
        assert s'.waiters[|s.waiters|] == i;
        forall k | 0 <= k < |s'.waiters| ensures s'.waiters[k] < |s'.writers| && s'.writers[s'.waiters[k]].pc.Parked? {
          assert k < |s.waiters| ==> s.waiters[k] != i;
        }
        assert forall j: nat :: Carries(s, j) ==> Carries(s', j);
        assert forall j: nat :: IsLive(s', j) ==> IsLive(s, j);
      }
    }
  }

  lemma ResumeKeeps(s: Scene, i: nat)
    requires SceneInv(s)
    ensures SceneInv(Act(s, Resume(i)))
  {
    if i < |s.writers| && s.writers[i].pc.Notified? {
      var s' := Act(s, Resume(i));
      MovedOutsideList(s, i, Checking);
      if !IsLive(s, i) { assert Carries(s', i); }
    }
  }

  lemma SendDoneKeeps(s: Scene, i: nat, ok: bool)
    requires SceneInv(s)
    ensures SceneInv(Act(s, SendDone(i, ok)))
  {
    if i < |s.writers| && s.writers[i].pc.Sending? {
      var s' := Act(s, SendDone(i, ok));
      MovedOutsideList(s, i, if ok then Checking else Gone);
      assert forall j: nat :: Carries(s, j) ==> Carries(s', j);
      assert forall j: nat :: IsLive(s', j) ==> IsLive(s, j);
    }
  }

  lemma {:induction false} RemoveProperties(waiters: seq<nat>, i: nat)
    requires forall j, k :: 0 <= j < k < |waiters| ==> waiters[j] != waiters[k]
    ensures forall w :: w in Remove(waiters, i) <==> w in waiters && w != i
    ensures forall j, k :: 0 <= j < k < |Remove(waiters, i)| ==> Remove(waiters, i)[j] != Remove(waiters, i)[k]
  {
    if waiters != [] {
      var rest := Remove(waiters[1..], i);
      RemoveProperties(waiters[1..], i);
      assert forall w :: w in waiters <==> w == waiters[0] || w in waiters[1..];
      assert waiters[0] !in rest;
    }
  }

  lemma AbortParkedKeeps(s: Scene, i: nat)
    requires SceneInv(s) && i < |s.writers| && s.writers[i].pc.Parked?
    ensures SceneInv(Aborts(s, i))
  {
    var s' := Aborts(s, i);
    RemoveProperties(s.waiters, i);
    forall k | 0 <= k < |s'.waiters| ensures s'.waiters[k] < |s'.writers| && s'.writers[s'.waiters[k]].pc.Parked? {
      assert s'.waiters[k] in s.waiters && s'.waiters[k] != i;
    }
    assert forall j: nat :: Carries(s, j) ==> Carries(s', j);
    assert forall j: nat :: IsLive(s', j) ==> IsLive(s, j);
  }

  /** Aborting a notified writer does not swallow its notification. */
  lemma AbortNotifiedKeeps(s: Scene, i: nat)
    requires SceneInv(s) && i < |s.writers| && s.writers[i].pc.Notified?
    ensures SceneInv(Aborts(s, i))
  {
    MovedOutsideList(s, i, Gone);
    NotifyOneWakes(SetWriter(s, i, Gone));
  }

  lemma AbortOtherKeeps(s: Scene, i: nat)
    requires SceneInv(s) && i < |s.writers| && (s.writers[i].pc.Spawned? || s.writers[i].pc.Sending?)
    ensures SceneInv(Aborts(s, i))
  {
    MovedOutsideList(s, i, Gone);
    var s' := SetWriter(s, i, Gone);
    assert forall j: nat :: Carries(s, j) ==> Carries(s', j);
    assert forall j: nat :: IsLive(s', j) ==> IsLive(s, j);
  }

  lemma AbortKeeps(s: Scene, i: nat)
    requires SceneInv(s)
    ensures SceneInv(Act(s, AbortWriter(i)))
  {
    if i < |s.writers| && CanAbort(s.writers[i].pc) {
      if s.writers[i].pc.Parked? {
        AbortParkedKeeps(s, i);
      } else if s.writers[i].pc.Notified? {
        AbortNotifiedKeeps(s, i);
      } else {
        AbortOtherKeeps(s, i);
      }
    }
  }

  lemma ActKeeps(s: Scene, a: Action)
    requires SceneInv(s)
    ensures SceneInv(Act(s, a))
  {
    match a
    case Arrive(_, _) => ProducersKeep(s, a);
    case Enlist(_) => ProducersKeep(s, a);
    case Wake(_) => ProducersKeep(s, a);
    case NotifyRoom => ProducersKeep(s, a);
    case TryPush(i) => TryPushKeeps(s, i);
    case PushNow(m, size) => PushNowKeeps(s, m, size);
    case AckLock(n) => AckLockKeeps(s, n);
    case RewindLock => RewindKeeps(s);
    case CloseLock => CloseKeeps(s);
    case NotifyReady => NotifyReadyKeeps(s);
    case Check(i) => CheckKeeps(s, i);
    case Park(i) => ParkKeeps(s, i);
    case Resume(i) => ResumeKeeps(s, i);
    case SendDone(i, ok) => SendDoneKeeps(s, i, ok);
    case AbortWriter(i) => AbortKeeps(s, i);
  }

  lemma {:induction false} EveryScheduleKeeps(limits: Limits, actions: seq<Action>)
    ensures SceneInv(Play(limits, actions))
  {
    if actions != [] {
      EveryScheduleKeeps(limits, actions[..|actions| - 1]);
      ActKeeps(Play(limits, actions[..|actions| - 1]), actions[|actions| - 1]);
    }
  }

  /** Nothing is left to run: no notification owed, and no writer between two waits. */
  predicate Settled(s: Scene) {
    && s.readyOwed == 0 && s.roomOwed == 0
    && forall i :: 0 <= i < |s.writers| ==>
      s.writers[i].pc.Parked? || s.writers[i].pc.Sending? || s.writers[i].pc.Gone?
  }

  /**
   No lost wakeup. In every schedule of producers, acknowledgements, rewinds, closes,
   writers and aborts, a waiting writer of the current epoch with work to do has a wakeup
   on its way, and so has every producer that waits although there is room or the uplink has
   closed. Once all tasks have run until they wait, the current writer waits only on a drained
   open window, and a producer only on a full open one.
   */
  lemma NoLostWakeup(limits: Limits, actions: seq<Action>, i: nat, p: nat)
    ensures var s := Play(limits, actions);
      && (IsLive(s, i) && s.writers[i].pc.Parked? && HasWork(s.window) ==> ReadyPending(s))
      && (p < |s.producers| && s.producers[p].pc == Refused(false) && s.roomOwed == 0 ==>
        IsFull(s.window, limits) && !s.window.closed)
      && (Settled(s) && IsLive(s, i) && s.writers[i].pc.Parked? ==>
        s.window.cursor == |s.window.pending| && !s.window.closed)
  {
    EveryScheduleKeeps(limits, actions);
    LimitsFixed(limits, actions);
    var s := Play(limits, actions);
    if Settled(s) && IsLive(s, i) && s.writers[i].pc.Parked? {
      assert i in s.waiters && !s.permit;
      assert !ReadyPending(s);
    }
  }

  lemma {:induction false} LimitsFixed(limits: Limits, actions: seq<Action>)
    ensures Play(limits, actions).limits == limits
  {
    if actions != [] {
      LimitsFixed(limits, actions[..|actions| - 1]);
    }
  }
}
