/** `executeFile` and `inspectFileEffect` in the order of infra/files/service.ts, performing
    the events of FileEffect one by one. Between two awaits anything else may happen. */
module FileService {
  import opened FileEffect

  /** `Busy` is the refusal of a second call, `Crashed` the death of the process. */
  datatype Ended = Busy | Crashed | Answer(outcome: Outcome)

  class Broker {
    var s: State
    ghost var events: seq<Event>

    ghost predicate Valid()
      reads this
    {
      s == Run(events)
    }

    constructor ()
      ensures Valid() && events == []
    {
      s := INITIAL;
      events := [];
    }

    method Perform(e: Event)
      requires Valid() && Enabled(s, e)
      modifies this
      ensures Valid() && s == Do(old(s), e) && events == old(events) + [e]
    {
      s := Do(s, e);
      events := events + [e];
      assert events[..|events| - 1] == old(events);
    }

    /** One await of a call: the helper, an inspection, an outside retirement and other
        writers make any number of moves, and the process may die. */
    method Await() returns (crashed: bool)
      requires Valid()
      modifies this
      ensures Valid() && old(events) <= events
      ensures if crashed then s.call.NoCall? else s.call == old(s.call) && s.asked == old(s.asked)
      ensures s.launches == old(s.launches)
    {
      var moves: nat := *;
      while moves > 0
        invariant Valid() && old(events) <= events
        invariant s.call == old(s.call) && s.asked == old(s.asked) && s.launches == old(s.launches)
      {
        var e: Event := *;
        if (ByHelper(e) || ByProbe(e)) && !e.Crash? && Enabled(s, e) {
          Perform(e);
        }
        moves := moves - 1;
      }
      crashed := *;
      if crashed {
        Perform(Crash);
      }
    }

    /** `persist`: write, flush, rename, flush the directory; the error may follow the rename. */
    method Persist() returns (reported: bool)
      requires Valid() && Writes(s.call)
      modifies this
      ensures Valid() && old(events) <= events
      ensures s.call == AfterSave(old(s.call), reported) && s.asked == old(s.asked)
      ensures reported ==> s.receipt == Written(old(s.call))
      ensures s.launches == old(s.launches)
    {
      var saved: bool := *;
      reported := *;
      Perform(Save(saved || reported, reported));
    }

    /** `retireFileHelper`: remove the container and confirm that it is gone. */
    method RetireHelper() returns (confirmed: bool)
      requires Valid() && (s.call.Retrying? || s.call.Closing?)
      modifies this
      ensures Valid() && old(events) <= events
      ensures s.call == AfterRetire(old(s.call), confirmed)
      ensures confirmed ==> s.helper.Absent?
      ensures s.launches == old(s.launches)
    {
      var removed: bool := *;
      confirmed := *;
      Perform(Retire(removed || confirmed, confirmed));
    }

    /** The dispatched request: the `prepared` frame is persisted before it is acknowledged. */
    method Handshake() returns (crashed: bool)
      requires Valid() && s.call.Waiting?
      modifies this
      ensures Valid() && old(events) <= events
      ensures if crashed then s.call.NoCall? else s.call.Closing? || s.call.Waiting? || s.call.Listening?
    {
      crashed := Await();
      if crashed || !s.helper.Offering? { return; }
      Perform(SeePrepared);
      crashed := Await();
      if crashed { return; }
      var prepared := Persist();
      if !prepared { return; }
      crashed := Await();
      if crashed { return; }
      Perform(Acknowledge);
      crashed := Await();
    }

    /** Launch and dispatch; ends with the reply that the closing path then handles. */
    method Exchange() returns (crashed: bool)
      requires Valid() && s.call.Launching?
      modifies this
      ensures Valid() && old(events) <= events
      ensures if crashed then s.call.NoCall? else s.call.Closing?
    {
      crashed := Await();
      if crashed { return; }
      var started: bool := *;
      started := started && s.helper.Absent?;
      Perform(Launch(started));
      if !started { return; }
      crashed := Await();
      if crashed { return; }
      var delivered: bool := *;
      var accepted: bool := *;
      Perform(Send(delivered || accepted, accepted));
      if !accepted { return; }
      crashed := Handshake();
      if crashed || s.call.Closing? { return; }
      if s.helper.Exited? {
        Perform(Collect);
      } else {
        Perform(Lose);
      }
    }

    /** `fixedFileHelper` for a write: whatever the reply, the helper is retired first. */
    method FixedFileHelper() returns (crashed: bool)
      requires Valid() && s.call.Launching?
      modifies this
      ensures Valid() && old(events) <= events
      ensures if crashed then s.call.NoCall? else s.call.Storing? || s.call.Done?
    {
      crashed := Exchange();
      if crashed { return; }
      crashed := Await();
      if crashed { return; }
      var confirmed := RetireHelper();
    }

    /** `validateApplied`, the project barrier and the final record. */
    method Finish() returns (crashed: bool)
      requires Valid() && s.call.Checking?
      modifies this
      ensures Valid() && old(events) <= events
      ensures if crashed then s.call.NoCall? else s.call.Done?
      ensures !crashed && s.call.outcome.Returned? ==> s.call.outcome.result == old(s.call.result)
      ensures s.launches == old(s.launches)
    {
      hide ProbeNext, ProbeEnabled, AfterRead, AfterResume, AfterExit, AfterRetire;
      crashed := Await();
      if crashed { return; }
      var ok: bool := *;
      var rejected: bool := *;
      ok := ok && s.disk == s.call.result;
      Perform(Check(ok, rejected));
      if !ok { return; }
      crashed := Await();
      if crashed { return; }
      var synced: bool := *;
      Perform(Flush(synced));
      if !synced { return; }
      crashed := Await();
      if crashed { return; }
      var reported := Persist();
    }

    /** No receipt yet: claim, run the helper, record, check and complete. */
    method Dispatch() returns (crashed: bool)
      requires Valid() && s.call.Claiming?
      modifies this
      ensures Valid() && old(events) <= events
      ensures if crashed then s.call.NoCall? else s.call.Done?
    {
      crashed := false;
      var reported := Persist();
      if !reported { return; }
      crashed := FixedFileHelper();
      if crashed || s.call.Done? { return; }
      crashed := Await();
      if crashed { return; }
      reported := Persist();
      if reported { crashed := Finish(); }
    }

    /** A receipt exists: retire the helper, then answer, finish or stay uncertain. Never launch. */
    method Retry() returns (crashed: bool)
      requires Valid() && s.call.Retrying?
      modifies this
      ensures Valid() && old(events) <= events
      ensures if crashed then s.call.NoCall? else s.call.Done?
      ensures s.launches == old(s.launches)
    {
      crashed := false;
      var confirmed := RetireHelper();
      if !confirmed { return; }
      crashed := Await();
      if crashed { return; }
      Perform(Resume);
      if s.call.Checking? { crashed := Finish(); }
    }

    /** The receipt is read: what it says decides whether anything may be launched. */
    method Looking(hash: nat) returns (crashed: bool)
      requires Valid() && s.call.NoCall?
      modifies this
      ensures Valid() && old(events) <= events && s.launches == old(s.launches)
      ensures if crashed then s.call.NoCall? else s.call.Claiming? || s.call.Retrying? || s.call.Done?
      ensures s.call.Claiming? ==> old(s.receipt.Missing?)
    {
      Perform(Begin(hash));
      crashed := Await();
      if crashed { return; }
      ReceiptsMoveForward(old(events), events[|old(events)|..]);
      assert old(events) + events[|old(events)|..] == events;
      Perform(Read);
      crashed := Await();
    }

    method ExecuteFile(hash: nat) returns (end: Ended)
      requires Valid()
      modifies this
      ensures Valid() && old(events) <= events
      ensures end.Busy? <==> !old(s.call.NoCall?)
      ensures end.Busy? ==> s == old(s)
      ensures !end.Busy? ==> s.call.NoCall?
      ensures !old(s.receipt.Missing?) ==> s.launches == old(s.launches)
      ensures end.Answer? && end.outcome.Returned? ==> s.receipt == Completed(end.outcome.result)
      ensures end.Answer? && end.outcome == Failed(true, false) ==> s.publications == [] && s.helper.Absent?
    {
      if !s.call.NoCall? { return Busy; }
      var crashed := Looking(hash);
      if crashed { return Crashed; }
      if s.call.Claiming? {
        crashed := Dispatch();
      } else if s.call.Retrying? {
        crashed := Retry();
      }
      if crashed { return Crashed; }
      AnswerIsSettled(events);
      end := Answer(s.call.outcome);
      Perform(End);
    }

    /** An inspection refused while a call is running changes nothing. */
    method InspectFileEffect(hash: nat) returns (report: Probe)
      requires Valid() && s.probe.NoProbe?
      modifies this
      ensures Valid() && old(events) <= events && s.probe.NoProbe?
      ensures report.NoProbe? || report.Reported? || report.Unresolved?
      ensures !old(s.call.NoCall?) ==> report.NoProbe? && s == old(s)
      ensures report.Reported? ==> s.receipt == Completed(report.result)
      ensures s.launches == old(s.launches) && s.publications == old(s.publications)
    {
      if !s.call.NoCall? { return NoProbe; }
      Perform(ProbeBegin(hash));
      while ProbeEnabled(s, false, false)
        invariant Valid() && old(events) <= events
        invariant s.launches == old(s.launches) && s.publications == old(s.publications)
        decreases ProbeLeft(s.probe)
      {
        var ok: bool := *;
        var saved: bool := *;
        if s.probe.ProbeChecking? { ok := ok && s.disk == s.probe.result; }
        Perform(ProbeStep(ok, saved || ok));
      }
      ReportIsSettled(events);
      report := s.probe;
      if !s.probe.NoProbe? { Perform(ProbeEnd); }
    }
  }

  lemma AnswerIsSettled(es: seq<Event>)
    requires Run(es).call.Done?
    ensures Run(es).call.outcome.Returned? ==> Run(es).receipt == Completed(Run(es).call.outcome.result)
    ensures Run(es).call.outcome == Failed(true, false) ==> Run(es).publications == [] && Run(es).helper.Absent?
  {
    RunKeepsInv(es);
  }

  lemma ReportIsSettled(es: seq<Event>)
    ensures Run(es).probe.Reported? ==> Run(es).receipt == Completed(Run(es).probe.result)
  {
    RunKeepsInv(es);
  }

  function ProbeLeft(p: Probe): (n: nat) {
    if p.ProbeRetiring? then 5
    else if p.ProbeReading? then 4
    else if p.ProbeChecking? then 3
    else if p.ProbeFlushing? then 2
    else if p.ProbeSaving? then 1
    else 0
  }
}
