/** What a file operation's call, its retry and its inspection answer when nothing fails
    (infra/files/service.ts, launcher.ts): from any state, for every stored record. */
module FileAnswers {
  import opened FileEffect

  function Steps(s: State, es: seq<Event>): (s': State)
    decreases |es|
  {
    if es == [] then s else Step(Steps(s, es[..|es| - 1]), es[|es| - 1])
  }

  lemma StepsMore(s: State, es: seq<Event>, e: Event)
    ensures Steps(s, es + [e]) == Step(Steps(s, es), e)
  {
    assert (es + [e])[..|es|] == es;
  }

  lemma {:induction false} StepsJoin(s: State, es: seq<Event>, more: seq<Event>)
    ensures Steps(s, es + more) == Steps(Steps(s, es), more)
    decreases |more|
  {
    if more == [] {
      assert es + more == es;
    } else {
      StepsJoin(s, es, more[..|more| - 1]);
      assert (es + more)[..|es + more| - 1] == es + more[..|more| - 1];
    }
  }

  lemma TwoSteps(s: State, a: Event, b: Event)
    ensures Steps(s, [a, b]) == Step(Step(s, a), b)
  {
    StepsMore(s, [], a);
    StepsMore(s, [a], b);
    assert [] + [a] == [a] && [a] + [b] == [a, b];
    hide Step;
  }

  lemma ThreeSteps(s: State, a: Event, b: Event, c: Event)
    ensures Steps(s, [a, b, c]) == Step(Step(Step(s, a), b), c)
  {
    hide Step;
    TwoSteps(s, a, b);
    StepsMore(s, [a, b], c);
    assert [a, b] + [c] == [a, b, c];
  }

  // ----- a call without a record ------------------------------------------------------------------

  /** The moves of a call, its helper and the file in which nothing fails. */
  function Faultless(hash: nat, content: nat, revision: nat): (es: seq<Event>) {
    [Begin(hash), Read, Save(true, true), Launch(true), Send(true, true), HelperOffer(content), SeePrepared]
    + [Save(true, true), Acknowledge, HelperPublish(revision), HelperPrint, Collect, Retire(true, true)]
    + Confirmation()
  }

  /** The check, the flush and the last record. */
  function Confirmation(): (es: seq<Event>) {
    [Save(true, true), Check(true, false), Flush(true), Save(true, true)]
  }

  predicate Fresh(s: State) {
    s.receipt.Missing? && s.call.NoCall? && s.helper.Absent?
  }

  lemma CallPrepares(s: State, hash: nat, content: nat)
    requires Fresh(s)
    ensures Steps(s, [Begin(hash), Read, Save(true, true), Launch(true), Send(true, true), HelperOffer(content),
                      SeePrepared])
            == s.(receipt := Dispatching, intent := hash, helper := Offering(content), call := Saving(content),
                  asked := hash, launches := s.launches + 1, sent := true)
  {
    hide Steps, Step;
    var claimed := s.(receipt := Dispatching, intent := hash, call := Launching, asked := hash);
    var sent := claimed.(helper := Working, call := Waiting, launches := s.launches + 1, sent := true);
    var first, next, last := [Begin(hash), Read, Save(true, true)], [Launch(true), Send(true, true)],
                             [HelperOffer(content), SeePrepared];
    ThreeSteps(s, Begin(hash), Read, Save(true, true));
    CallClaims(s, hash);
    TwoSteps(claimed, Launch(true), Send(true, true));
    CallLaunches(claimed);
    TwoSteps(sent, HelperOffer(content), SeePrepared);
    CallSees(sent, content);
    StepsJoin(s, first, next);
    StepsJoin(s, first + next, last);
    assert first + next + last == [Begin(hash), Read, Save(true, true), Launch(true), Send(true, true),
                                   HelperOffer(content), SeePrepared];
  }

  lemma CallClaims(s: State, hash: nat)
    requires Fresh(s)
    ensures Step(Step(Step(s, Begin(hash)), Read), Save(true, true))
            == s.(receipt := Dispatching, intent := hash, call := Launching, asked := hash)
  {
  }

  lemma CallLaunches(s: State)
    requires s.call.Launching? && s.helper.Absent?
    ensures Step(Step(s, Launch(true)), Send(true, true))
            == s.(helper := Working, call := Waiting, launches := s.launches + 1, sent := true)
  {
  }

  lemma CallSees(s: State, content: nat)
    requires s.call.Waiting? && s.helper.Working?
    ensures Step(Step(s, HelperOffer(content)), SeePrepared)
            == s.(helper := Offering(content), call := Saving(content))
  {
  }

  lemma CallPublishes(s: State, content: nat, revision: nat)
    requires s.call == Saving(content) && s.helper == Offering(content)
    ensures var r := Result(content, revision);
            Steps(s, [Save(true, true), Acknowledge, HelperPublish(revision), HelperPrint, Collect, Retire(true, true)])
            == s.(receipt := Prepared(content), helper := Absent, disk := r, call := Storing(r),
                  publications := s.publications + [r])
  {
    hide Steps;
    var r := Result(content, revision);
    var s1 := s.(receipt := Prepared(content), helper := Authorized(content), call := Listening);
    var first := [Save(true, true), Acknowledge];
    var next := [HelperPublish(revision), HelperPrint, Collect, Retire(true, true)];
    CallAuthorizes(s, content);
    CallCollects(s1, content, revision);
    StepsJoin(s, first, next);
    assert first + next == [Save(true, true), Acknowledge, HelperPublish(revision), HelperPrint, Collect,
                            Retire(true, true)];
  }

  lemma CallAuthorizes(s: State, content: nat)
    requires s.call == Saving(content) && s.helper == Offering(content)
    ensures Steps(s, [Save(true, true), Acknowledge])
            == s.(receipt := Prepared(content), helper := Authorized(content), call := Listening)
  {
    hide Steps;
    TwoSteps(s, Save(true, true), Acknowledge);
  }

  lemma CallCollects(s: State, content: nat, revision: nat)
    requires s.call.Listening? && s.helper == Authorized(content)
    ensures var r := Result(content, revision);
            Steps(s, [HelperPublish(revision), HelperPrint, Collect, Retire(true, true)])
            == s.(helper := Absent, disk := r, call := Storing(r), publications := s.publications + [r])
  {
    hide Steps, Step;
    var r := Result(content, revision);
    var printed := s.(disk := r, publications := s.publications + [r], helper := Exited(Printed(r)));
    TwoSteps(s, HelperPublish(revision), HelperPrint);
    HelperPrints(s, content, revision);
    TwoSteps(printed, Collect, Retire(true, true));
    CallHears(printed, r);
    StepsJoin(s, [HelperPublish(revision), HelperPrint], [Collect, Retire(true, true)]);
    assert [HelperPublish(revision), HelperPrint] + [Collect, Retire(true, true)]
           == [HelperPublish(revision), HelperPrint, Collect, Retire(true, true)];
  }

  lemma HelperPrints(s: State, content: nat, revision: nat)
    requires s.helper == Authorized(content)
    ensures var r := Result(content, revision);
            Step(Step(s, HelperPublish(revision)), HelperPrint)
            == s.(disk := r, publications := s.publications + [r], helper := Exited(Printed(r)))
  {
  }

  lemma CallHears(s: State, r: Result)
    requires s.call.Listening? && s.helper == Exited(Printed(r))
    ensures Step(Step(s, Collect), Retire(true, true)) == s.(helper := Absent, call := Storing(r))
  {
  }

  lemma CallConfirms(s: State, r: Result)
    requires s.call == Storing(r) && s.disk == r
    ensures Steps(s, Confirmation()) == s.(receipt := Completed(r), call := Done(Returned(r)), checked := true,
                                           flushed := true)
  {
    hide Steps;
    var stored := s.(receipt := Applied(r), call := Checking(r));
    ResultIsStored(s, r);
    AppliedIsConfirmed(stored, r);
    StepsJoin(s, [Save(true, true)], [Check(true, false), Flush(true), Save(true, true)]);
    assert [Save(true, true)] + [Check(true, false), Flush(true), Save(true, true)] == Confirmation();
  }

  lemma ResultIsStored(s: State, r: Result)
    requires s.call == Storing(r)
    ensures Steps(s, [Save(true, true)]) == s.(receipt := Applied(r), call := Checking(r))
  {
    StepsMore(s, [], Save(true, true));
    assert [] + [Save(true, true)] == [Save(true, true)];
  }

  /** A call in which nothing fails publishes its content once, records and returns it. */
  lemma FaultlessCallReturns(s: State, hash: nat, content: nat, revision: nat)
    requires Fresh(s)
    ensures var r, s' := Result(content, revision), Steps(s, Faultless(hash, content, revision));
            && s'.call == Done(Returned(r)) && s'.receipt == Completed(r) && s'.intent == hash && s'.disk == r
            && s'.publications == s.publications + [r] && s'.helper.Absent?
  {
    hide Step;
    var first := [Begin(hash), Read, Save(true, true), Launch(true), Send(true, true), HelperOffer(content),
                  SeePrepared];
    var next := [Save(true, true), Acknowledge, HelperPublish(revision), HelperPrint, Collect, Retire(true, true)];
    CallPrepares(s, hash, content);
    CallPublishes(Steps(s, first), content, revision);
    StepsJoin(s, first, next);
    CallConfirms(Steps(s, first + next), Result(content, revision));
    StepsJoin(s, first + next, Confirmation());
  }

  // ----- a call that finds a record ---------------------------------------------------------------

  /** Another intent is refused before anything is touched. */
  lemma OtherIntentIsRefused(s: State, hash: nat)
    requires s.call.NoCall? && !s.receipt.Missing? && s.intent != hash
    ensures Steps(s, [Begin(hash), Read]) == s.(call := Done(Failed(false, false)), asked := hash)
  {
    TwoSteps(s, Begin(hash), Read);
  }

  /** The same intent, once the helper is gone: a completed record answers at once, an applied one is to be
      confirmed, and the two before that leave the operation in doubt. */
  lemma RetryAnswers(s: State, hash: nat)
    requires s.call.NoCall? && !s.receipt.Missing? && s.intent == hash
    ensures Steps(s, [Begin(hash), Read, Retire(true, true), Resume])
            == s.(helper := Absent, asked := hash,
                  call := match s.receipt
                    case Completed(r) => Done(Returned(r))
                    case Applied(r) => Checking(r)
                    case _ => Done(Failed(false, false)))
  {
    var es := [];
    StepsMore(s, es, Begin(hash));
    es := es + [Begin(hash)];
    StepsMore(s, es, Read);
    es := es + [Read];
    StepsMore(s, es, Retire(true, true));
    es := es + [Retire(true, true)];
    StepsMore(s, es, Resume);
    assert es + [Resume] == [Begin(hash), Read, Retire(true, true), Resume];
  }

  /** An applied result that is still on disk is then confirmed and returned. */
  lemma AppliedIsConfirmed(s: State, r: Result)
    requires s.call == Checking(r) && s.disk == r
    ensures Steps(s, [Check(true, false), Flush(true), Save(true, true)])
            == s.(receipt := Completed(r), call := Done(Returned(r)), checked := true, flushed := true)
  {
    hide Steps, Step;
    ThreeSteps(s, Check(true, false), Flush(true), Save(true, true));
    CheckPasses(s, r);
    LastRecord(s.(call := Finishing(r), checked := true, flushed := true), r);
  }

  lemma CheckPasses(s: State, r: Result)
    requires s.call == Checking(r) && s.disk == r
    ensures Step(Step(s, Check(true, false)), Flush(true)) == s.(call := Finishing(r), checked := true, flushed := true)
  {
  }

  lemma LastRecord(s: State, r: Result)
    requires s.call == Finishing(r)
    ensures Step(s, Save(true, true)) == s.(receipt := Completed(r), call := Done(Returned(r)))
  {
  }

  /** So a retry that finds its result applied and still on disk returns it, without another publication. */
  lemma RetryReturns(s: State, hash: nat, r: Result)
    requires s.call.NoCall? && s.receipt == Applied(r) && s.intent == hash && s.disk == r
    ensures Steps(s, [Begin(hash), Read, Retire(true, true), Resume]
                     + [Check(true, false), Flush(true), Save(true, true)])
            == s.(helper := Absent, asked := hash, receipt := Completed(r), call := Done(Returned(r)), checked := true,
                  flushed := true)
  {
    hide Step, Steps;
    RetryAnswers(s, hash);
    AppliedIsConfirmed(s.(helper := Absent, asked := hash, call := Checking(r)), r);
    StepsJoin(s, [Begin(hash), Read, Retire(true, true), Resume], [Check(true, false), Flush(true), Save(true, true)]);
  }

  // ----- a failure and what the call says of it ---------------------------------------------------------

  /** A helper's error before publication is reported as a rejection, and any other end as none. */
  lemma HelperErrorIsHeard(s: State, rejecting: bool)
    requires (s.call.Waiting? || s.call.Acking? || s.call.Listening?) && Enabled(s, HelperExit(rejecting))
    ensures Steps(s, [HelperExit(rejecting), Collect, Retire(true, true)])
            == s.(helper := Absent, call := Done(Failed(rejecting, false)))
  {
    var es := [];
    StepsMore(s, es, HelperExit(rejecting));
    es := es + [HelperExit(rejecting)];
    StepsMore(s, es, Collect);
    es := es + [Collect];
    StepsMore(s, es, Retire(true, true));
    assert es + [Retire(true, true)] == [HelperExit(rejecting), Collect, Retire(true, true)];
  }

  /** An error of the check counts as late, and is a rejection if it says so. */
  lemma CheckErrorIsLate(s: State, rejected: bool)
    requires s.call.Checking?
    ensures Step(s, Check(false, rejected)) == s.(call := Done(Failed(rejected, true)))
  {
  }

  /** No other failure is ever taken for a rejection. What a write left on disk, a request at the helper or
      a removal of the helper, is there whether or not the call heard of it. */
  lemma UnheardIsNoRejection(s: State, e: Event)
    requires Enabled(s, e)
    ensures e == Launch(false) || e.Lose? ==> Step(s, e) == s.(call := Closing(Threw(false)))
    ensures e.Send? && !e.accepted ==>
              Step(s, e) == s.(call := Closing(Threw(false)), sent := s.sent || e.delivered,
                               helper := if e.delivered && s.helper.Idle? then Working else s.helper)
    ensures e.Retire? && !e.confirmed ==>
              Step(s, e) == s.(call := Done(Failed(false, false)), helper := if e.removed then Absent else s.helper)
    ensures e == Flush(false) ==> Step(s, e) == s.(call := Done(Failed(false, true)))
  {
  }

  lemma UnheardWrite(s: State, saved: bool)
    requires Enabled(s, Save(saved, false))
    ensures Step(s, Save(saved, false)) ==
            s.(receipt := if saved then Written(s.call) else s.receipt,
               intent := if saved && s.call.Claiming? then s.asked else s.intent,
               call := if s.call.Claiming? then Done(Failed(false, false))
                       else if s.call.Saving? then Closing(Threw(false)) else Done(Failed(false, true)))
  {
  }

  /** What passes outside of a call: an end forgets the call, a crash the call and the inspection, a removal
      the helper, an edit the file; nothing else of the operation changes. */
  lemma OutsideLeaves(s: State, disk: Result)
    ensures s.call.Done? ==> Step(s, End) == s.(call := NoCall)
    ensures s.probe.Reported? || s.probe.Unresolved? ==> Step(s, ProbeEnd) == s.(probe := NoProbe)
    ensures Step(s, Crash) == s.(call := NoCall, probe := NoProbe)
    ensures Step(s, OutsideRetire) == s.(helper := Absent)
    ensures Step(s, Edit(disk)) == s.(disk := disk)
  {
    hide ProbeNext, ProbeEnabled, AfterRead, AfterResume, AfterExit, AfterRetire, AfterSave, Written;
  }

  // ----- an inspection --------------------------------------------------------------------------------

  /** An inspection of another intent ends without an answer; else a completed record is reported, an
      applied one is to be confirmed, and any other is unresolved. */
  lemma InspectionAnswers(s: State, hash: nat)
    requires s.call.NoCall? && s.probe.NoProbe?
    ensures Steps(s, [ProbeBegin(hash), ProbeStep(true, true), ProbeStep(true, true)])
            == s.(helper := Absent, probed := hash,
                  probe := match s.receipt
                    case Missing => Unresolved
                    case Completed(r) => if s.intent == hash then Reported(r) else NoProbe
                    case Applied(r) => if s.intent == hash then ProbeChecking(r) else NoProbe
                    case _ => if s.intent == hash then Unresolved else NoProbe)
  {
    var es := [];
    StepsMore(s, es, ProbeBegin(hash));
    es := es + [ProbeBegin(hash)];
    StepsMore(s, es, ProbeStep(true, true));
    es := es + [ProbeStep(true, true)];
    StepsMore(s, es, ProbeStep(true, true));
    assert es + [ProbeStep(true, true)] == [ProbeBegin(hash), ProbeStep(true, true), ProbeStep(true, true)];
  }

  /** An applied result that is still on disk is then completed and reported. */
  lemma InspectionConfirms(s: State, r: Result)
    requires s.probe == ProbeChecking(r) && s.disk == r
    ensures Steps(s, [ProbeStep(true, true), ProbeStep(true, true), ProbeStep(true, true)])
            == s.(receipt := Completed(r), probe := Reported(r), checked := true, flushed := true)
  {
    var es := [];
    StepsMore(s, es, ProbeStep(true, true));
    es := es + [ProbeStep(true, true)];
    StepsMore(s, es, ProbeStep(true, true));
    es := es + [ProbeStep(true, true)];
    StepsMore(s, es, ProbeStep(true, true));
    assert es + [ProbeStep(true, true)] == [ProbeStep(true, true), ProbeStep(true, true), ProbeStep(true, true)];
  }

  /** So an inspection reports and completes a result that is applied and still on disk. */
  lemma InspectionReports(s: State, hash: nat, r: Result)
    requires s.call.NoCall? && s.probe.NoProbe? && s.receipt == Applied(r) && s.intent == hash && s.disk == r
    ensures Steps(s, [ProbeBegin(hash), ProbeStep(true, true), ProbeStep(true, true)]
                     + [ProbeStep(true, true), ProbeStep(true, true), ProbeStep(true, true)])
            == s.(helper := Absent, probed := hash, receipt := Completed(r), probe := Reported(r), checked := true,
                  flushed := true)
  {
    hide Step, Steps;
    InspectionAnswers(s, hash);
    InspectionConfirms(s.(helper := Absent, probed := hash, probe := ProbeChecking(r)), r);
    StepsJoin(s, [ProbeBegin(hash), ProbeStep(true, true), ProbeStep(true, true)],
              [ProbeStep(true, true), ProbeStep(true, true), ProbeStep(true, true)]);
  }

  /** An inspection that cannot see the helper gone gives no answer; one that fails later is unresolved,
      with the record completed if the write had reached the disk. */
  lemma InspectionFails(s: State, saved: bool)
    requires ProbeEnabled(s, false, saved)
    ensures s.probe.ProbeRetiring? ==>
              Step(s, ProbeStep(false, saved)) == s.(probe := NoProbe, helper := if saved then Absent else s.helper)
    ensures s.probe.ProbeChecking? || s.probe.ProbeFlushing? ==>
              Step(s, ProbeStep(false, saved)) == s.(probe := Unresolved)
    ensures s.probe.ProbeSaving? ==>
              Step(s, ProbeStep(false, saved)) ==
              s.(probe := Unresolved, receipt := if saved then Completed(s.probe.result) else s.receipt)
  {
  }
}
