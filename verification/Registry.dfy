/**
 The controller's mutable agent table: sessions, deduplication cursors and reservations.
 Sessions and cursors follow `Delivery`, reservations follow `Fleet`.
 */
module Registry {
  import opened Basics
  import D = Delivery
  import Fleet

  datatype Entry = Entry(seat: D.Seat, connected: bool, activeRun: Option<RunId>)

  /** What a registration leaves to do once the table's lock is released. */
  datatype Followup = Nothing | Terminate(run: RunId) | MaybeReplay(run: RunId)

  datatype Selection = Selected(agents: seq<AgentId>) | AgentsBusy | NoAgents

  /** An agent a submission may take: connected, fresh and matching, and free. */
  predicate Available(entries: map<AgentId, Entry>, matching: set<AgentId>, a: AgentId) {
    a in entries && entries[a].connected && a in matching && entries[a].activeRun.None?
  }

  predicate Suitable(entries: map<AgentId, Entry>, matching: set<AgentId>, a: AgentId) {
    a in entries && entries[a].connected && a in matching
  }

  class Table {
    var entries: map<AgentId, Entry>

    constructor ()
      ensures entries == map[]
    {
      entries := map[];
    }

    /** The reservations, as the fleet model keeps them. */
    ghost function Reservations(): map<AgentId, Option<RunId>>
      reads this
    {
      map a | a in entries :: entries[a].activeRun
    }

    ghost function SeatOf(a: AgentId): Option<D.Seat>
      reads this
    {
      if a in entries then Some(entries[a].seat) else None
    }

    ghost predicate OnlyChanges(a: AgentId, before: map<AgentId, Entry>)
      reads this
    {
      entries.Keys <= before.Keys + {a} && forall b :: b in before && b != a ==> b in entries && entries[b] == before[b]
    }

    /** Fence, move the cursor and acknowledge in one section. */
    method Admit(a: AgentId, session: nat, seqNo: nat) returns (decision: D.Decision, ack: Option<nat>)
      modifies this
      ensures D.Admitted(decision, SeatOf(a), ack) == D.Admit(old(SeatOf(a)), session, seqNo)
      ensures OnlyChanges(a, old(entries)) && Reservations() == old(Reservations())
    {
      if a !in entries || entries[a].seat.session != session {
        return D.Stale, None;
      }
      var seat := entries[a].seat;
      if seqNo == 0 {
        return D.Decision.Apply, if seat.lastSeq > 0 then Some(seat.lastSeq) else None;
      }
      if seqNo <= seat.lastSeq {
        return D.Duplicate, Some(seat.lastSeq);
      }
      entries := entries[a := entries[a].(seat := seat.(lastSeq := seqNo))];
      return D.Decision.Apply, Some(seqNo);
    }

    /** A reconnect keeps cursor and reservation; a restart resets both and ends the old participation. */
    method Register(a: AgentId, inc: nat, session: nat, conn: nat, claims: bool) returns (followup: Followup)
      modifies this
      ensures SeatOf(a) == Some(D.Register(old(SeatOf(a)), inc, session, conn))
      ensures OnlyChanges(a, old(entries)) && entries[a].connected
      ensures var restarted := a in old(entries) && old(entries)[a].seat.inc != inc;
        var held := if a in old(entries) then old(entries)[a].activeRun else None;
        && entries[a].activeRun == (if restarted then None else held)
        && followup ==
          if held.None? then Nothing
          else if restarted then Terminate(held.value)
          else if claims then Nothing
          else MaybeReplay(held.value)
    {
      var lastSeq, held, restarted := 0, None, false;
      if a in entries {
        var prev := entries[a];
        if prev.seat.inc == inc {
          lastSeq := prev.seat.lastSeq;
        }
        restarted := prev.seat.inc != inc;
        held := prev.activeRun;
      }
      followup := Nothing;
      if held.Some? && restarted {
        followup := Terminate(held.value);
        held := None;
      } else if held.Some? && !claims {
        followup := MaybeReplay(held.value);
      }
      entries := entries[a := Entry(D.Seat(inc, session, conn, lastSeq), true, held)];
    }

    method MarkDisconnected(a: AgentId, session: nat)
      modifies this
      ensures OnlyChanges(a, old(entries)) && SeatOf(a) == old(SeatOf(a)) && Reservations() == old(Reservations())
      ensures a in entries ==>
        entries[a].connected == (old(entries)[a].connected && old(entries)[a].seat.session != session)
    {
      if a in entries && entries[a].seat.session == session {
        entries := entries[a := entries[a].(connected := false)];
      }
    }

    /**
     Reserve every available agent for the run; `ids` is the table's iteration order and
     `matching` the fresh agents with the wanted labels. Nothing else changes.
     */
    method Reserve(ids: seq<AgentId>, matching: set<AgentId>, run: RunId) returns (selection: Selection)
      requires forall a :: a in ids <==> a in entries
      requires forall i, j :: 0 <= i < j < |ids| ==> ids[i] != ids[j]
      modifies this
      ensures match selection
        case Selected(agents) =>
          && agents != [] && (forall i, j :: 0 <= i < j < |agents| ==> agents[i] != agents[j])
          && (forall a :: a in agents <==> Available(old(entries), matching, a))
          && Reservations() == (map a | a in old(entries) :: if a in agents then Some(run) else old(entries)[a].activeRun)
        case AgentsBusy =>
          && entries == old(entries) && (forall a :: !Available(entries, matching, a))
          && (exists a :: Suitable(entries, matching, a))
        case NoAgents => entries == old(entries) && forall a :: !Suitable(entries, matching, a)
    {
      var agents := [];
      var suitable := 0;
      for i := 0 to |ids|
        invariant forall a :: a in agents <==> a in ids[..i] && Available(old(entries), matching, a)
        invariant forall j, k :: 0 <= j < k < |agents| ==> agents[j] != agents[k]
        invariant forall a :: a in entries <==> a in old(entries)
        invariant forall a :: a in entries ==>
          entries[a] == if a in agents then old(entries)[a].(activeRun := Some(run)) else old(entries)[a]
        invariant suitable > 0 <==> exists a :: a in ids[..i] && Suitable(old(entries), matching, a)
      {
        var a := ids[i];
        assert ids[..i + 1] == ids[..i] + [a] && a !in ids[..i];
        if !(entries[a].connected && a in matching) {
          continue;
        }
        assert Suitable(old(entries), matching, a);
        suitable := suitable + 1;
        if entries[a].activeRun.None? {
          entries := entries[a := entries[a].(activeRun := Some(run))];
          agents := agents + [a];
        }
      }
      assert ids[..|ids|] == ids;
      if agents == [] {
        assert entries == old(entries);
        return if suitable > 0 then AgentsBusy else NoAgents;
      }
      return Selected(agents);
    }

    /** Compare and clear: only this run's reservations go. */
    method Release(roster: seq<AgentId>, run: RunId)
      modifies this
      ensures forall a :: SeatOf(a) == old(SeatOf(a))
      ensures (forall a :: a in old(entries) && old(entries)[a].activeRun == Some(run) ==> a in roster) ==>
        Reservations() == Fleet.Released(old(Reservations()), run)
    {
      for i := 0 to |roster|
        invariant forall a :: a in entries <==> a in old(entries)
        invariant forall a :: a in entries ==>
          entries[a] ==
            if a in roster[..i] && old(entries)[a].activeRun == Some(run) then old(entries)[a].(activeRun := None)
            else old(entries)[a]
      {
        assert roster[..i + 1] == roster[..i] + [roster[i]];
        var a := roster[i];
        if a in entries && entries[a].activeRun == Some(run) {
          entries := entries[a := entries[a].(activeRun := None)];
        }
      }
      assert roster[..|roster|] == roster;
    }
  }
}
