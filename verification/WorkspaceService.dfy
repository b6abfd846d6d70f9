/** `withWorkspaceReceipt` in the order of infra/storage/workspace-receipts.ts with the effects of
    `executeWorkspace`, and the database row that `processWorkspaceStorage` keeps beside it. */
module WorkspaceService {
  import opened WorkspaceReceipts

  /** `Active` is the refusal of a second call, `Crashed` the death of the process. */
  datatype Ended = Active | Crashed | Answer(ending: Ending)

  /** Which await comes after which. */
  predicate Follows(c: Call, d: Call) {
    (Moving(d) || d.Done?)
    && match c
       case NoCall => false
       case Loading(_) => d.Done? || d.Reviving? || d.Retiring? || d.Opening? || d == Settling(Completed)
       case Reviving => d.Done? || d.Retiring?
       case Retiring(_) => d.Done? || d.Comparing? || d.Executing? || (d.Discarding? && !d.aim.Abort?)
       case Discarding(_, aim) => d.Done? || (if aim.Redo? then d.Executing? else d == Flushing(aim))
       case Comparing(_) => d.Done? || d == Flushing(Finish)
       case Opening => d.Done? || d.Executing?
       case Executing(_) => d.Checkpointing? || d.Catching?
       case Checkpointing(_) => d.Populating? || d.Deleting? || d.Catching?
       case Populating(_) => d.Applying? || d.Catching?
       case Deleting(_) => d.Applying? || d.Catching?
       case Applying(_) => (d.Settling? && d.mem.Applied?) || d.Catching?
       case Settling(mem) => if mem.Completed? then d.Done? else d == Flushing(Finish) || d.Catching?
       case Catching(mem) => d == Done(Threw) || (!mem.Removing? && !mem.Applied?
                                                  && (d == Flushing(Abort) || d == Discarding(mem, Abort)))
       case Flushing(aim) => d.Done? || (if aim.Abort? then d.Failing? else d.Completing?)
       case Completing => d.Done?
       case Failing => d.Done?
       case Done(_) => false
  }

  lemma MoveFollows(s: State, fault: Fault)
    requires Inv(s) && Moving(s.call)
    ensures Follows(s.call, Advance(s, fault).call)
  {
    hide Inv, Advance, Follows;
    MoveKeepsInv(s, fault);
    if s.creating { CreateFollows(s, fault); } else { RemoveFollows(s, fault); }
  }

  lemma CreateFollows(s: State, fault: Fault)
    requires Inv(s) && s.creating && Moving(s.call) && Inv(Advance(s, fault))
    ensures Follows(s.call, Advance(s, fault).call)
  {
    hide Common, RemoveRecord, RemoveCall, Remains;
  }

  lemma RemoveFollows(s: State, fault: Fault)
    requires Inv(s) && !s.creating && Moving(s.call) && Inv(Advance(s, fault))
    ensures Follows(s.call, Advance(s, fault).call)
  {
    hide Common, CreateRecord, CreateCall, Remains;
  }

  lemma EndingIsTrue(start: State, es: seq<Event>)
    requires Start(start)
    ensures Run(start, es).call == Done(Returned) ==> Run(start, es).record.Completed?
    ensures Run(start, es).call == Done(StorageFailed) ==>
              Run(start, es).record.Failed? || Run(start, es).record.Missing?
  {
    RunKeepsInv(start, es);
  }

  class Launcher {
    const start: State
    var s: State
    ghost var events: seq<Event>

    ghost predicate Valid()
      reads this
    {
      s == Run(start, events) && Start(start)
    }

    constructor (creating: bool, home: nat)
      ensures Valid() && events == [] && Start(start) && start.creating == creating
    {
      start := if creating then Creation() else Removal(home);
      s := if creating then Creation() else Removal(home);
      events := [];
    }

    method Perform(e: Event)
      requires Valid() && Enabled(s, e)
      modifies this
      ensures Valid() && s == Do(old(s), e) && events == old(events) + [e]
    {
      s := Do(s, e);
      events := events + [e];
      RunOneMore(start, old(events), e);
    }

    /** One await: the helper may write, the process may die, or the effect ends one way or another. */
    method Attempt() returns (crashed: bool)
      requires Valid() && Moving(s.call)
      modifies this
      ensures Valid() && old(events) <= events
      ensures if crashed then s.call.NoCall? else Follows(old(s.call), s.call)
    {
      var moves: nat := *;
      while moves > 0
        invariant Valid() && old(events) <= events
        invariant s.call == old(s.call)
      {
        var full: bool := *;
        if Enabled(s, HelperWrites(full)) { Perform(HelperWrites(full)); }
        moves := moves - 1;
      }
      crashed := *;
      if crashed {
        Perform(Crash);
      } else {
        var fault: Fault := *;
        RunKeepsInv(start, events);
        MoveFollows(s, fault);
        Perform(Move(fault));
      }
    }

    /** The stored record, or none; a failed removal is revived when asked to. */
    method Load() returns (crashed: bool)
      requires Valid() && s.call.Loading?
      modifies this
      ensures Valid() && old(events) <= events
      ensures if crashed then s.call.NoCall?
              else s.call.Done? || s.call.Retiring? || s.call.Opening? || s.call == Settling(Completed)
    {
      crashed := Attempt();
      if !crashed && s.call.Reviving? {
        crashed := Attempt();
      }
    }

    /** An applied or a removing record is finished; any other one is cleared for another try. */
    method Reconcile() returns (crashed: bool)
      requires Valid() && s.call.Retiring?
      modifies this
      ensures Valid() && old(events) <= events
      ensures if crashed then s.call.NoCall? else s.call.Done? || s.call.Executing?
    {
      crashed := Attempt();
      if !crashed && (s.call.Comparing? || s.call.Discarding?) {
        crashed := Attempt();
      }
      if !crashed && s.call.Flushing? {
        crashed := Conclude();
      }
    }

    /** The project barrier and the last record. */
    method Conclude() returns (crashed: bool)
      requires Valid() && s.call.Flushing?
      modifies this
      ensures Valid() && old(events) <= events
      ensures if crashed then s.call.NoCall? else s.call.Done?
    {
      crashed := Attempt();
      if !crashed && !s.call.Done? {
        crashed := Attempt();
      }
    }

    method Open() returns (crashed: bool)
      requires Valid() && s.call.Opening?
      modifies this
      ensures Valid() && old(events) <= events
      ensures if crashed then s.call.NoCall? else s.call.Done? || s.call.Executing?
    {
      var room: bool := *;
      crashed := false;
      if !room {
        Perform(Refuse);
        return;
      }
      crashed := Attempt();
    }

    /** Prepare or inspect, checkpoint, populate or delete, record, retire, flush, complete. */
    method Execute() returns (crashed: bool)
      requires Valid() && s.call.Executing?
      modifies this
      ensures Valid() && old(events) <= events
      ensures if crashed then s.call.NoCall? else s.call.Done? || s.call.Catching?
    {
      crashed := Attempt();
      if crashed || s.call.Catching? { return; }
      crashed := Attempt();
      if crashed || s.call.Catching? { return; }
      crashed := Attempt();
      if crashed || s.call.Catching? { return; }
      crashed := Attempt();
      if crashed || s.call.Catching? { return; }
      crashed := Attempt();
      if crashed || s.call.Catching? { return; }
      crashed := Conclude();
    }

    /** The `catch`: nothing that was applied or is being removed is rolled back. */
    method RollBack() returns (crashed: bool)
      requires Valid() && s.call.Catching?
      modifies this
      ensures Valid() && old(events) <= events
      ensures if crashed then s.call.NoCall? else s.call.Done?
      ensures !crashed && old(s.call.mem.Removing? || s.call.mem.Applied?) ==> s.call == Done(Threw)
    {
      crashed := Attempt();
      if !crashed && s.call.Discarding? {
        crashed := Attempt();
      }
      if !crashed && s.call.Flushing? {
        crashed := Conclude();
      }
    }

    /** One call for the operation, from whatever a crash left behind. What the receipt says at its end
        is so on disk, power losses included. */
    method WithWorkspaceReceipt(retry: bool) returns (end: Ended)
      requires Valid()
      modifies this
      ensures Valid() && old(events) <= events && s.creating == start.creating
      ensures end.Active? <==> !old(s.call.NoCall?)
      ensures end.Active? ==> s == old(s)
      ensures !end.Active? ==> s.call.NoCall?
      ensures end == Answer(Returned) ==> s.record.Completed?
      ensures end == Answer(StorageFailed) ==> s.record.Failed? || s.record.Missing?
      ensures s.record.Completed? ==>
                Flushed(s) && !s.busy && if s.creating then s.checkout.Full? else s.checkout.Absent?
      ensures s.record.Failed? ==> !s.busy && forall c :: c in s.past ==>
                if s.creating then !Populated(c) else c == Full(start.home)
    {
      end := Attend(retry);
      CompletionIsTrue(start, events);
      FailureLeavesNothingHalf(start, events);
      KindStays(start, events);
    }

    method Attend(retry: bool) returns (end: Ended)
      requires Valid()
      modifies this
      ensures Valid() && old(events) <= events
      ensures end.Active? <==> !old(s.call.NoCall?)
      ensures end.Active? ==> s == old(s)
      ensures !end.Active? ==> s.call.NoCall?
      ensures end == Answer(Returned) ==> s.record.Completed?
      ensures end == Answer(StorageFailed) ==> s.record.Failed? || s.record.Missing?
    {
      if !s.call.NoCall? { return Active; }
      Perform(Begin(retry));
      var crashed := Load();
      if !crashed && s.call.Settling? {
        crashed := Attempt();
      } else if !crashed && s.call.Retiring? {
        crashed := Reconcile();
      } else if !crashed && s.call.Opening? {
        crashed := Open();
      }
      if !crashed && s.call.Executing? {
        crashed := Execute();
      }
      if !crashed && s.call.Catching? {
        crashed := RollBack();
      }
      if crashed { return Crashed; }
      EndingIsTrue(start, events);
      end := Answer(s.call.ending);
      Perform(End);
    }
  }
}
