/** `processFiles` in the order of apps/supervisor/src/files.ts, performing the events of
    FileOperations. Between two awaits the database, the helpers and the disk may move. */
module FileSupervisor {
  import opened Reservations
  import opened FileOperations
  import opened FileAgreement
  import FE = FileEffect

  lemma RepairHasRow(es: seq<Event>)
    ensures Run(es).repairs.Keys <= Run(es).db.files.Keys && Run(es).effects.Keys == Run(es).db.files.Keys
    ensures Run(es).phase.Settling? ==> Run(es).phase.x in Run(es).repairs
    ensures Run(es).phase.Scanning? ==> forall x :: x in Run(es).phase.todo ==> x in Run(es).effects
  {
    RunKeepsInv(es);
  }

  /** The row, the receipt, the effect and the reservation of one operation tell the same story. */
  ghost predicate Agrees(s: System, x: Id) {
    && x in s.db.files && x in s.effects
    && (s.db.files[x].state.Succeeded? ==>
          x in s.results && s.effects[x].receipt == FE.Completed(s.results[x])
            && s.effects[x].publications == [s.results[x]])
    && (s.db.files[x].state.Failed? ==> (s.effects[x].publications == [] <==> x !in s.late))
    && (forall w :: w in s.db.workspaces ==>
          (s.db.workspaces[w].writer == FileWriter(x) <==> s.db.files[x].workspace == w && Unresolved(s.db.files[x])))
  }

  lemma EveryRowAgrees(es: seq<Event>)
    ensures forall x :: x in Run(es).db.files ==> Agrees(Run(es), x)
  {
    forall x | x in Run(es).db.files ensures Agrees(Run(es), x) { RowAgrees(es, x); }
  }

  lemma RowAgrees(es: seq<Event>, x: Id)
    requires x in Run(es).db.files
    ensures Agrees(Run(es), x)
  {
    hide Run;
    RepairHasRow(es);
    if Run(es).db.files[x].state.Succeeded? { SucceededMeansCompleted(es, x); }
    if Run(es).db.files[x].state.Failed? { FailedMeansUnpublishedUnlessLate(es, x); }
    forall w | w in Run(es).db.workspaces
      ensures Run(es).db.workspaces[w].writer == FileWriter(x) <==>
                Run(es).db.files[x].workspace == w && Unresolved(Run(es).db.files[x])
    {
      ReservationNamesTheUnresolved(es, w, x);
    }
  }

  class Dispatcher {
    var s: System
    ghost var events: seq<Event>

    ghost predicate Valid()
      reads this
    {
      s == Run(events)
    }

    constructor ()
      ensures Valid() && events == [] && s.phase.Booting?
    {
      s := START;
      events := [];
    }

    method Perform(e: Event)
      requires Valid() && Enabled(s, e)
      modifies this
      ensures Valid() && s == Do(old(s), e) && events == old(events) + [e]
    {
      s := Do(s, e);
      events := events + [e];
      assert events[..|events| - 1] == old(events);
    }

    /** One await: transactions of others and moves of helpers, in any number. */
    method Await()
      requires Valid()
      modifies this
      ensures Valid() && old(events) <= events
      ensures s.phase == old(s.phase) && s.repairs == old(s.repairs)
    {
      var moves: nat := *;
      while moves > 0
        invariant Valid() && old(events) <= events
        invariant s.phase == old(s.phase) && s.repairs == old(s.repairs)
      {
        var e: Event := *;
        if (e.Others? || e.Outside?) && Enabled(s, e) { Perform(e); }
        moves := moves - 1;
      }
    }

    /** A new process: the in-memory repairs are gone, every dispatching row becomes uncertain. */
    method Restart()
      requires Valid()
      modifies this
      ensures Valid() && old(events) <= events && s.phase.Resting? && s.repairs == map[]
      ensures forall x :: x in s.db.files ==> !s.db.files[x].state.Dispatching?
    {
      Perform(Crash);
      Await();
      RepairHasRow(events);
      Perform(Startup);
    }

    /** Settlements that an earlier tick could not confirm come before anything else. */
    method SettleRepairs() returns (settled: bool)
      requires Valid() && s.phase.Resting?
      modifies this
      ensures Valid() && old(events) <= events && s.phase.Resting?
      ensures settled ==> s.repairs == map[]
    {
      while s.repairs != map[]
        invariant Valid() && old(events) <= events && s.phase.Resting?
        decreases |s.repairs|
      {
        var x :| x in s.repairs;
        Await();
        var replied := RepairOne(x);
        if !replied { return false; }
      }
      settled := true;
    }

    method RepairOne(x: Id) returns (replied: bool)
      requires Valid() && s.phase.Resting? && x in s.repairs
      modifies this
      ensures Valid() && old(events) <= events && s.phase.Resting?
      ensures s.repairs == if replied then old(s.repairs) - {x} else old(s.repairs)
      ensures replied ==> |s.repairs| < |old(s.repairs)|
    {
      RepairHasRow(events);
      var committed: bool := *;
      replied := *;
      Perform(Repair(x, committed || replied, replied));
      if replied { assert old(s.repairs).Keys == s.repairs.Keys + {x}; }
    }

    /** One queued inspection, inside the transaction that holds the workspace. */
    method InspectOne(x: Id)
      requires Valid() && Enabled(s, Inspect(x))
      modifies this
      ensures Valid() && old(events) <= events && s.phase.Resting? && s.repairs == map[]
    {
      Perform(Inspect(x));
      var moves: nat := *;
      while moves > 0
        invariant Valid() && old(events) <= events && s.phase == Inspecting(x) && x in s.effects && s.repairs == map[]
      {
        var ok: bool := *;
        var saved: bool := *;
        if FE.ProbeEnabled(s.effects[x], ok, saved) { Perform(ProbeMove(FE.ProbeStep(ok, saved))); }
        moves := moves - 1;
      }
      if FE.ProbeEnabled(s.effects[x], false, false) {
        Restart();
      } else {
        var committed: bool := *;
        var refused: bool := *;
        Perform(InspectEnded(committed, refused));
      }
    }

    /** `executeFile` under the dispatcher; a call that never returns ends with the process. */
    method Execute()
      requires Valid() && s.phase.Executing? && s.phase.x in s.effects && s.repairs == map[]
      modifies this
      ensures Valid() && old(events) <= events
      ensures s.phase.Settling? || (s.phase.Resting? && s.repairs == map[])
    {
      var x := s.phase.x;
      var moves: nat := *;
      while moves > 0
        invariant Valid() && old(events) <= events && s.phase == old(s.phase) && x in s.effects && s.repairs == map[]
      {
        var e: FE.Event := *;
        var outside: bool := *;
        if outside && FE.ByHelper(e) && !e.Crash? { Perform(Outside(x, e)); }
        else if CallMove(e) { Perform(Call(e)); }
        moves := moves - 1;
      }
      if s.effects[x].call.Done? {
        var retired: bool := *;
        Perform(CallEnded(retired));
      } else {
        Restart();
      }
    }

    /** The settlement of this tick's operation; an unconfirmed one stays in memory. */
    method Settle()
      requires Valid() && s.phase.Settling?
      modifies this
      ensures Valid() && old(events) <= events && s.phase.Resting?
    {
      Await();
      RepairHasRow(events);
      var committed: bool := *;
      var replied: bool := *;
      var again: bool := *;
      Perform(SettleNow(committed || replied, replied, again && !replied));
      if s.phase.Settling? {
        Await();
        RepairHasRow(events);
        committed, replied := *, *;
        Perform(SettleNow(committed || replied, replied, false));
      }
    }

    /** One tick: repairs, then an inspection or a dispatch. However it went, receipt, effect and row
        agree at its end. */
    method ProcessFiles(requested: Id, found: seq<Id>, maintenance: bool)
      requires Valid() && s.phase.Resting?
      modifies this
      ensures Valid() && old(events) <= events && s.phase.Resting?
      ensures forall x :: x in s.db.files ==> Agrees(s, x)
    {
      Pass(requested, found, maintenance);
      EveryRowAgrees(events);
    }

    method Pass(requested: Id, found: seq<Id>, maintenance: bool)
      requires Valid() && s.phase.Resting?
      modifies this
      ensures Valid() && old(events) <= events && s.phase.Resting?
    {
      var settled := SettleRepairs();
      if !settled { return; }
      if Enabled(s, Inspect(requested)) {
        InspectOne(requested);
        return;
      }
      if maintenance || !Enabled(s, Scan(found)) { return; }
      Perform(Scan(found));
      while s.phase.Scanning? && s.phase.todo != []
        invariant Valid() && old(events) <= events
        invariant s.phase.Resting? || (s.phase.Scanning? && s.repairs == map[])
        decreases if s.phase.Scanning? then 1 + |s.phase.todo| else 0
      {
        DispatchFirst();
      }
      if s.phase.Scanning? { Perform(GiveUp); }
    }

    /** The first candidate left: refused ones are skipped, an admitted one ends the tick. */
    method DispatchFirst()
      requires Valid() && s.phase.Scanning? && s.phase.todo != [] && s.repairs == map[]
      modifies this
      ensures Valid() && old(events) <= events
      ensures s.phase.Resting? || (s.phase == Scanning(old(s.phase.todo[1..])) && s.repairs == map[])
    {
      Await();
      RepairHasRow(events);
      var x := s.phase.todo[0];
      assert x in s.phase.todo;
      var admitted: bool := *;
      if !admitted || !CanClaimFile(s.db, x) {
        Perform(Skip);
      } else {
        var committed: bool := *;
        var replied: bool := *;
        var built: bool := *;
        Perform(Claim(committed || replied, replied, built && replied));
        if s.phase.Executing? { Execute(); }
        if s.phase.Settling? { Settle(); }
      }
    }
  }
}
