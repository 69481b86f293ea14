/**
 The agent process as a mutable object: the shared slot, the cancel flags, the start
 channels and the reports waiting for the uplink. Each method is one handler or one step of
 a detached task, and does what the corresponding function of `AgentSlot` says.
 */
module AgentProcess {
  import opened Basics
  import opened AgentSlot

  class Process {
    var slot: Slot
    var preps: map<nat, Prep>
    var engines: map<nat, Engine>
    var nextTask: nat
    var outbox: multiset<Message>
    ghost var over: set<RunId>
    ghost var starts: set<StartSeen>
    ghost var ran: seq<Ran>

    ghost function View(): Proc
      reads this
    {
      Proc(slot, preps, engines, nextTask, outbox, over, starts, ran)
    }

    constructor ()
      ensures View() == IDLE
    {
      slot, preps, engines, nextTask, outbox := Empty, map[], map[], 0, multiset{};
      over, starts, ran := {}, {}, [];
    }

    method Enqueue(m: Message)
      modifies this`outbox
      ensures View() == Post(old(View()), m)
    {
      outbox := outbox + multiset{m};
    }

    method Move(t: nat, phase: Phase)
      requires t in engines
      modifies this`engines
      ensures View() == SetPhase(old(View()), t, phase)
    {
      engines := engines[t := engines[t].(phase := phase)];
    }

    /** Claim the slot for a preparation, ignore a duplicate, refuse while busy. */
    method HandleAssignment(run: RunId, index: nat, count: nat)
      modifies this
      ensures View() == OnAssignment(old(View()), run, index, count)
    {
      if index >= count {
        Enqueue(PrepFailed(run));
        return;
      }
      match slot {
        case Preparing(r, _, _) =>
          if r != run {
            Enqueue(PrepFailed(run));
          }
          return;
        case Armed(r, t) =>
          if r == run {
            return;
          }
          var finished := t in engines && (engines[t].phase == Over(true) || engines[t].phase == Reported(true));
          if !finished {
            Enqueue(PrepFailed(run));
            return;
          }
        case Empty =>
      }
      slot := Preparing(run, nextTask, None);
      preps := preps[nextTask := Prep(run, index, count, false)];
      nextTask := nextTask + 1;
    }

    /** Fire the start channel once, or latch the time for an engine still being built. */
    method HandleStart(run: RunId, at: int)
      modifies this
      ensures View() == OnStart(old(View()), run, at)
    {
      over := over + {run};
      starts := starts + {StartSeen(run, at)};
      match slot {
        case Armed(r, t) =>
          if r == run && t in engines && engines[t].phase.Waiting? {
            Move(t, Sent(at));
          }
        case Preparing(r, t, _) =>
          if r == run {
            slot := Preparing(r, t, Some(at));
          }
        case Empty =>
      }
    }

    method HandleHalt(run: RunId)
      modifies this
      ensures View() == OnHalt(old(View()), run)
    {
      over := over + {run};
      match slot {
        case Preparing(r, t, _) =>
          if r == run {
            if t in preps {
              preps := preps[t := preps[t].(cancelled := true)];
            }
            slot := Empty;
          }
        case Armed(r, t) =>
          if r == run && t in engines && engines[t].phase.Waiting? {
            Move(t, Dropped);
            slot := Empty;
          }
        case Empty =>
      }
      Enqueue(ControlAck(run));
    }

    method PreparationFailed(t: nat)
      requires t in preps
      modifies this
      ensures View() == PrepFails(old(View()), t)
    {
      var prep := preps[t];
      preps := preps - {t};
      if slot.Preparing? && slot.run == prep.run {
        slot := Empty;
      }
      if !prep.cancelled {
        Enqueue(PrepFailed(prep.run));
      }
    }

    method PreparationDone(t: nat)
      requires t in preps
      modifies this
      ensures View() == PrepDone(old(View()), t)
    {
      var prep := preps[t];
      preps := preps - {t};
      if !slot.Preparing? || slot.run != prep.run {
        return;
      }
      if prep.cancelled {
        slot := Empty;
        return;
      }
      var phase := if slot.latched.Some? then Sent(slot.latched.value) else Waiting;
      slot := Armed(prep.run, t);
      engines := engines[t := Engine(prep.run, prep.index, prep.count, phase)];
      Enqueue(Ready(prep.run, prep.index));
    }

    method Begin(t: nat)
      requires t in engines && engines[t].phase.Sent?
      modifies this
      ensures View() == Begins(old(View()), t)
    {
      var at := engines[t].phase.at;
      ran := ran + [Ran(t, engines[t].run, at)];
      Move(t, Running(at));
    }

    method Finish(t: nat, clean: bool)
      requires t in engines && engines[t].phase.Running?
      modifies this
      ensures View() == Ends(old(View()), t, clean)
    {
      Move(t, Over(clean));
    }

    method Report(t: nat)
      requires t in engines && engines[t].phase.Over?
      modifies this
      ensures View() == Reports(old(View()), t)
    {
      Move(t, Reported(engines[t].phase.clean));
    }

    /** The run task leaves; only a slot armed for its run is cleared. */
    method Leave(t: nat)
      requires CanClear(View(), t)
      modifies this
      ensures View() == Clears(old(View()), t)
    {
      var run := engines[t].run;
      engines := engines - {t};
      if slot.Armed? && slot.run == run {
        if slot.task in engines && engines[slot.task].phase.Waiting? {
          Move(slot.task, Dropped);
        }
        slot := Empty;
      }
    }
  }
}
