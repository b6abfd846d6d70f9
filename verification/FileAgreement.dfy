/** What the file supervisor's every run guarantees about rows, reservations, receipts and
    effects, and the one branch in which a failed row hides a published effect. */
module FileAgreement {
  import opened Reservations
  import opened ReservationRules
  import opened FileOperations
  import FE = FileEffect

  // ----- the guarantees ----------------------------------------------------------------

  /** A workspace's file reservation names X exactly when X is dispatching, or uncertain and
      unacknowledged, in X's own workspace. */
  lemma ReservationNamesTheUnresolved(es: seq<Event>, w: Id, x: Id)
    requires w in Run(es).db.workspaces
    ensures Run(es).db.workspaces[w].writer == FileWriter(x) <==>
      x in Run(es).db.files && Run(es).db.files[x].workspace == w && Unresolved(Run(es).db.files[x])
  {
    RunKeepsInv(es);
  }

  /** A succeeded row stands for a completed receipt with the same result, published once. */
  lemma SucceededMeansCompleted(es: seq<Event>, x: Id)
    requires x in Run(es).db.files && Run(es).db.files[x].state.Succeeded?
    ensures x in Run(es).effects && x in Run(es).results
    ensures Run(es).effects[x].receipt == FE.Completed(Run(es).results[x])
    ensures Run(es).effects[x].publications == [Run(es).results[x]]
  {
    RunKeepsInv(es);
    assert RowInv(Run(es), x);
    FE.ReachableKeepsInv(Run(es).effects[x]);
  }

  lemma RunOneMore(es: seq<Event>, e: Event)
    ensures Run(es + [e]) == Step(Run(es), e)
  {
    assert (es + [e])[..|es + [e]| - 1] == es;
  }

  predicate Ended(s: System, x: Id) {
    x in s.db.files && (s.db.files[x].state.Succeeded? || s.db.files[x].state.Failed?)
  }

  lemma RepairsOpenRows(s: System, y: Id)
    requires Inv(s) && y in s.repairs
    ensures y in s.db.files && y in s.effects && RowInv(s, y)
  {
    hide FileRules, PhaseInv, RowInv;
  }

  lemma SettledStays(s: System, y: Id, epoch: nat, x: Id)
    requires Inv(s) && Ended(s, x) && y in s.repairs && y in s.db.files && (epoch != 0 ==> s.db.files[y].epoch == epoch)
    ensures Kept(s, SettleRow(s, y, epoch), x)
  {
    RepairsOpenRows(s, y);
    RepairSettles(s, y);
    RulesOf(s);
    assert SettleRow(s, y, epoch) == Settle(s.db, y, s.repairs[y], epoch);
    hide Inv, RowInv, FileRules, SettleRow, Settle;
    SettleMovesRows(s.db, y, s.repairs[y], epoch);
  }

  lemma InspectedStays(s: System, committed: bool, refused: bool, x: Id)
    requires Inv(s) && Ended(s, x) && Enabled(s, InspectEnded(committed, refused))
    ensures Kept(s, Do(s, InspectEnded(committed, refused)).db, x)
  {
    hide Inv, FileRules, FE.Step, Noted, Do, Enabled;
    RulesOf(s);
    InspectEndedShape(s, committed, refused);
    InspectionMovesNoRow(s, committed, refused);
  }

  lemma ClaimedStays(s: System, committed: bool, replied: bool, built: bool, x: Id)
    requires Inv(s) && Ended(s, x) && Enabled(s, Claim(committed, replied, built))
    ensures Kept(s, Do(s, Claim(committed, replied, built)).db, x)
  {
    hide Inv, RowInv, FileRules, Do, ClaimFile, CanClaimFile;
    var y := s.phase.todo[0];
    assert y in s.phase.todo;
    ScannedRow(s, y);
    RulesOf(s);
    ClaimShape(s, committed, replied, built);
    if committed { ClaimFileMoves(s.db, y); }
  }

  /** Every other event leaves the rows alone. */
  lemma MovesLeaveRows(s: System, e: Event)
    requires Enabled(s, e)
    requires !e.Others? && !e.Startup? && !e.Repair? && !e.SettleNow? && !e.Claim? && !e.InspectEnded?
    ensures Do(s, e).db == s.db
    ensures !e.CallEnded? ==> Do(s, e).late == s.late
  {
  }

  predicate Kept(s: System, d: Db, x: Id)
    requires x in s.db.files
  {
    x in d.files && d.files[x].state == s.db.files[x].state
  }

  lemma SettlementStays(s: System, e: Event, x: Id)
    requires Inv(s) && Ended(s, x) && Enabled(s, e) && (e.Repair? || e.SettleNow?)
    ensures Kept(s, Do(s, e).db, x)
  {
    hide Inv, Do, Enabled, SettleRow;
    SettlementShape(s, e);
    var y := if e.Repair? then e.x else s.phase.x;
    var epoch := if e.Repair? then s.db.files[y].epoch else s.phase.epoch;
    if e.SettleNow? { SettlingEpoch(s, e); }
    if e.committed { SettledStays(s, y, epoch, x); }
  }

  lemma OthersStay(s: System, e: Event, x: Id)
    requires Inv(s) && Ended(s, x) && Enabled(s, e) && (e.Others? || e.Startup?)
    ensures Kept(s, Do(s, e).db, x)
  {
    hide Inv, Apply, RecoverStartup;
    if e.Others? { OthersKeepRows(s.db, e.tx); } else { StartupMovesRows(s.db); }
  }

  /** A row that ended keeps its state whatever happens later. */
  lemma EndedStays(s: System, e: Event, x: Id)
    requires Inv(s) && Ended(s, x)
    ensures Kept(s, Step(s, e).db, x)
  {
    hide Inv, Enabled, Do;
    if Enabled(s, e) {
      if e.Others? || e.Startup? { OthersStay(s, e, x); }
      else if e.Repair? || e.SettleNow? { SettlementStays(s, e, x); }
      else if e.Claim? { ClaimedStays(s, e.committed, e.replied, e.built, x); }
      else if e.InspectEnded? { InspectedStays(s, e.committed, e.refused, x); }
      else { MovesLeaveRows(s, e); }
    }
  }

  lemma CallerIsDispatching(s: System)
    requires Inv(s) && s.phase.Executing?
    ensures s.phase.x in s.db.files && s.db.files[s.phase.x].state.Dispatching?
  {
    hide FileRules, RowInv;
  }

  lemma OnlyCallsExcuse(s: System, e: Event)
    requires Enabled(s, e) && !e.CallEnded?
    ensures Do(s, e).late == s.late
  {
    hide Apply, ClaimFile, SettleRow, RecoverStartup, FailInspection, FE.Step;
  }

  lemma CallExcusesItsRow(s: System, retired: bool)
    requires Enabled(s, CallEnded(retired))
    ensures s.late <= Do(s, CallEnded(retired)).late <= s.late + {s.phase.x}
  {
    hide FE.Step;
  }

  /** Event `k` of the run ended the call of X with an error of the check that follows publication, or
      of what comes after it, and the dispatcher took the error for a rejection. */
  predicate LateRejection(es: seq<Event>, k: nat, x: Id)
    requires k < |es|
  {
    var s, e := Run(es[..k]), es[k];
    && e.CallEnded? && Enabled(s, e) && s.phase.x == x
    && s.effects[x].call.outcome.Failed? && s.effects[x].call.outcome.late
    && Verdict(e.retired, s.effects[x].sent, s.effects[x].call.outcome.rejected).Failed?
  }

  lemma EndingExcuses(s: System, retired: bool, x: Id)
    requires Enabled(s, CallEnded(retired))
    ensures var outcome := s.effects[s.phase.x].call.outcome;
            x in Do(s, CallEnded(retired)).late <==>
              || x in s.late
              || (x == s.phase.x && outcome.Failed? && outcome.late
                  && Verdict(retired, s.effects[x].sent, outcome.rejected).Failed?)
  {
    hide FE.Step;
  }

  lemma {:induction false} ExcusedMeansLate(es: seq<Event>, x: Id)
    ensures x in Run(es).late <==> exists k: nat :: k < |es| && LateRejection(es, k, x)
    decreases |es|
  {
    hide Enabled, Do, Verdict;
    if es != [] {
      var n := |es| - 1;
      var before, e := es[..n], es[n];
      ExcusedMeansLate(before, x);
      forall k: nat | k < n ensures LateRejection(es, k, x) == LateRejection(before, k, x) {
        assert es[..k] == before[..k] && es[k] == before[k];
      }
      if Enabled(Run(before), e) {
        if e.CallEnded? { EndingExcuses(Run(before), e.retired, x); } else { OnlyCallsExcuse(Run(before), e); }
      }
      assert LateRejection(es, n, x) || !LateRejection(es, n, x);
    }
  }

  /** A failed row hides a publication exactly when some call of it ended with an error that came from
      the check after publication, or later, and was taken for a rejection. */
  lemma FailedMeansUnpublishedUnlessLate(es: seq<Event>, x: Id)
    requires x in Run(es).db.files && Run(es).db.files[x].state.Failed?
    ensures x in Run(es).effects
    ensures Run(es).effects[x].publications == [] <==> x !in Run(es).late
    ensures Run(es).effects[x].publications == [] <==> !exists k: nat :: k < |es| && LateRejection(es, k, x)
  {
    RunKeepsInv(es);
    assert RowInv(Run(es), x);
    ExcusedMeansLate(es, x);
  }

  /** Only the row of the running call can be excused. */
  lemma ExcuseStays(s: System, e: Event, x: Id)
    requires Inv(s) && Ended(s, x)
    ensures x in Step(s, e).late <==> x in s.late
  {
    hide Enabled, Do;
    if Enabled(s, e) {
      if e.CallEnded? {
        CallExcusesItsRow(s, e.retired);
        CallIsRunning(s, e.retired);
        CallerIsDispatching(s);
      } else {
        OnlyCallsExcuse(s, e);
      }
    }
  }

  lemma CallIsRunning(s: System, retired: bool)
    requires Enabled(s, CallEnded(retired))
    ensures s.phase.Executing?
  {
  }

  /** Nothing is ever published for a row that failed before publication. */
  lemma {:induction false} FailedStaysUnpublished(es: seq<Event>, later: seq<Event>, x: Id)
    requires x in Run(es).db.files && Run(es).db.files[x].state.Failed? && x !in Run(es).late
    ensures x in Run(es + later).db.files && Run(es + later).db.files[x].state.Failed? && x !in Run(es + later).late
    ensures x in Run(es + later).effects && Run(es + later).effects[x].publications == []
    decreases |later|
  {
    if later == [] {
      assert es + later == es;
    } else {
      var n := |later| - 1;
      FailedStaysUnpublished(es, later[..n], x);
      assert es + later == (es + later[..n]) + [later[n]];
      RunOneMore(es + later[..n], later[n]);
      RunKeepsInv(es + later[..n]);
      EndedStays(Run(es + later[..n]), later[n], x);
      ExcuseStays(Run(es + later[..n]), later[n], x);
    }
    FailedMeansUnpublishedUnlessLate(es + later, x);
  }

  // ----- the premise: a check that does not itself report an error ------------------------------

  /** The read-only check after publication never reports an error of its own. */
  predicate QuietChecks(es: seq<Event>) {
    forall i :: 0 <= i < |es| ==> es[i] != Call(FE.Check(false, true))
  }

  predicate NoLateRejection(s: System) {
    s.late == {} && forall x :: x in s.effects ==> s.effects[x].call != FE.Done(FE.Failed(true, true))
  }

  lemma CallIsAsBefore(e: FE.State, move: FE.Event)
    requires FE.ByHelper(move) || FE.ByProbe(move)
    ensures FE.Step(e, move).call == e.call || FE.Step(e, move).call == FE.NoCall
  {
    hide FE.ProbeNext, FE.ProbeEnabled;
    if move.ProbeStep? && FE.Enabled(e, move) { ProbingCallsNothing(e, move.ok, move.saved); }
  }

  lemma ProbingCallsNothing(e: FE.State, ok: bool, saved: bool)
    requires FE.ProbeEnabled(e, ok, saved)
    ensures FE.ProbeNext(e, ok, saved).call == e.call
  {
    hide FE.AfterProbeRead;
  }

  lemma QuietMove(e: FE.State, move: FE.Event)
    requires e.call != FE.Done(FE.Failed(true, true)) && move != FE.Check(false, true)
    ensures FE.Step(e, move).call != FE.Done(FE.Failed(true, true))
  {
    hide FE.Step;
    if FE.ByHelper(move) || FE.ByProbe(move) { CallIsAsBefore(e, move); } else { QuietCall(e, move); }
  }

  lemma QuietCall(e: FE.State, move: FE.Event)
    requires e.call != FE.Done(FE.Failed(true, true)) && move != FE.Check(false, true)
    requires !FE.ByHelper(move) && !FE.ByProbe(move)
    ensures FE.Step(e, move).call != FE.Done(FE.Failed(true, true))
  {
    hide FE.ProbeNext, FE.ProbeEnabled, FE.Written;
  }

  lemma QuietTouch(s: System, x: Id, move: FE.Event)
    requires NoLateRejection(s) && x in s.effects && move != FE.Check(false, true)
    ensures NoLateRejection(Touch(s, x, move))
  {
    QuietMove(s.effects[x], move);
  }

  /** The dispatcher excuses only a late rejection. */
  lemma QuietOutcome(e: FE.State, retired: bool)
    requires FE.Reachable(e) && e.call.Done? && e.call != FE.Done(FE.Failed(true, true)) && e.call.outcome.Failed?
    ensures !(Verdict(retired, e.sent, e.call.outcome.rejected).Failed? && e.call.outcome.late)
  {
    FE.ReachableKeepsInv(e);
  }

  lemma QuietThrown(s: System, retired: bool)
    requires Inv(s) && NoLateRejection(s) && Enabled(s, CallEnded(retired)) && s.effects[s.phase.x].call.outcome.Failed?
    ensures NoLateRejection(DoCallEnded(s, s.phase.x, s.phase.epoch, retired))
  {
    var x := s.phase.x;
    var e := s.effects[x];
    EndedCall(s);
    QuietOutcome(e, retired);
    EndFacts(e, retired);
    var e' := (if retired then e.(helper := FE.Absent) else e).(call := FE.NoCall);
    ThrownShape(s, x, retired, e');
    assert Enabled(s, CallEnded(retired)) ==> s.phase.Executing?;
    hide Inv, Enabled, Verdict, DoCallEnded, FE.Step, FE.Reachable;
    assert e'.call == FE.NoCall;
  }

  lemma QuietReturned(s: System, retired: bool)
    requires NoLateRejection(s) && Enabled(s, CallEnded(retired)) && s.effects[s.phase.x].call.outcome.Returned?
    ensures NoLateRejection(DoCallEnded(s, s.phase.x, s.phase.epoch, retired))
  {
    QuietTouch(s, s.phase.x, FE.End);
  }

  lemma QuietClaim(s: System, committed: bool, replied: bool, built: bool)
    requires NoLateRejection(s) && Enabled(s, Claim(committed, replied, built))
    ensures NoLateRejection(Do(s, Claim(committed, replied, built)))
  {
    QuietTouch(s, s.phase.todo[0], FE.Begin(s.phase.todo[0]));
  }

  lemma QuietStep(s: System, e: Event)
    requires Inv(s) && NoLateRejection(s) && e != Call(FE.Check(false, true))
    ensures NoLateRejection(Step(s, e))
  {
    hide Inv, Enabled, Do, NoLateRejection;
    if Enabled(s, e) {
      if e.CallEnded? { QuietEnded(s, e.retired); }
      else if e.Claim? { QuietClaim(s, e.committed, e.replied, e.built); }
      else if e.InspectEnded? { QuietInspection(s, e.committed, e.refused); }
      else if e.Crash? { QuietCrash(s); }
      else if e.Outside? || e.Call? || e.ProbeMove? || e.Inspect? { QuietTouched(s, e); }
      else { QuietRows(s, e); }
    }
  }

  lemma QuietEnded(s: System, retired: bool)
    requires Inv(s) && NoLateRejection(s) && Enabled(s, CallEnded(retired))
    ensures NoLateRejection(Do(s, CallEnded(retired)))
  {
    hide Inv, NoLateRejection, DoCallEnded;
    if s.effects[s.phase.x].call.outcome.Failed? { QuietThrown(s, retired); } else { QuietReturned(s, retired); }
  }

  lemma QuietInspection(s: System, committed: bool, refused: bool)
    requires NoLateRejection(s) && Enabled(s, InspectEnded(committed, refused))
    ensures NoLateRejection(Do(s, InspectEnded(committed, refused)))
  {
    hide Do, Enabled, Noted, FE.Step;
    InspectEndedShape(s, committed, refused);
    var s1 := s.(db := Noted(s, committed, refused), phase := Resting);
    QuietTouch(s1, s.phase.x, FE.ProbeEnd);
  }

  lemma QuietTouched(s: System, e: Event)
    requires NoLateRejection(s) && Enabled(s, e) && (e.Outside? || e.Call? || e.ProbeMove? || e.Inspect?)
    requires e != Call(FE.Check(false, true))
    ensures NoLateRejection(Do(s, e))
  {
    hide FE.Step, CanInspect;
    if e.Outside? { QuietTouch(s, e.x, e.move); }
    else if e.Inspect? { QuietTouch(s.(phase := Inspecting(e.x)), e.x, FE.ProbeBegin(e.x)); }
    else { QuietTouch(s, s.phase.x, e.move); }
  }

  lemma QuietRows(s: System, e: Event)
    requires NoLateRejection(s) && Enabled(s, e)
    requires e.Others? || e.Startup? || e.Repair? || e.Scan? || e.Skip? || e.GiveUp? || e.SettleNow?
    ensures NoLateRejection(Do(s, e))
  {
    hide Apply, SettleRow, RecoverStartup;
  }

  lemma QuietCrash(s: System)
    requires NoLateRejection(s)
    ensures NoLateRejection(Do(s, Crash))
  {
    forall x | x in s.effects ensures FE.Step(s.effects[x], FE.Crash).call != FE.Done(FE.Failed(true, true)) {
      QuietMove(s.effects[x], FE.Crash);
    }
  }

  lemma {:induction false} QuietRun(es: seq<Event>)
    requires QuietChecks(es)
    ensures NoLateRejection(Run(es))
    decreases |es|
  {
    if es != [] {
      var n := |es| - 1;
      assert QuietChecks(es[..n]);
      QuietRun(es[..n]);
      RunKeepsInv(es[..n]);
      QuietStep(Run(es[..n]), es[n]);
    }
  }

  /** Under that premise a failed row always means that nothing was published. */
  lemma FailedMeansUnpublished(es: seq<Event>, x: Id)
    requires QuietChecks(es) && x in Run(es).db.files && Run(es).db.files[x].state.Failed?
    ensures x in Run(es).effects && Run(es).effects[x].publications == []
  {
    QuietRun(es);
    FailedMeansUnpublishedUnlessLate(es, x);
  }

  // ----- the run that shows the premise is needed -----------------------------------------------

  const BEGUN := FE.INITIAL.(call := FE.Reading, asked := 5)

  /** Applied and published, yet the call was rejected. */
  const REJECTED := FE.State(
    FE.Applied(FE.Result(3, 9)), 5, FE.Absent, FE.Result(3, 9), FE.Done(FE.Failed(true, true)), 5,
    FE.NoProbe, 0, 1, true, [FE.Result(3, 9)], false, false)

  function Dispatched(e: FE.State): (s: System) {
    System(
      EMPTY.(next := 2, workspaces := map[1 := Workspace(1, true, FileWriter(5), 2)],
             files := map[5 := File(1, Stage, Dispatching, 2, false, Uninspected)]),
      map[5 := e], map[], Executing(5, 2), map[], {})
  }

  function QueuedRow(): (d: Db) {
    EMPTY.(workspaces := map[1 := Workspace(1, true, Nobody, 0)],
           files := map[5 := File(1, Stage, Queued, 0, false, Uninspected)])
  }

  lemma OneIsQueued() returns (es: seq<Event>)
    ensures Run(es) == System(QueuedRow(), map[5 := FE.INITIAL], map[], Booting, map[], {})
  {
    hide Step;
    RunOneMore([], Others(AddWorkspace(1, 1)));
    OneWorkspace();
    es := [] + [Others(AddWorkspace(1, 1))];
    RunOneMore(es, Others(AcceptTx(5, 1, Stage)));
    OneAccepted();
    es := es + [Others(AcceptTx(5, 1, Stage))];
    assert Run([]) == START;
  }

  const ONE_WORKSPACE := EMPTY.(workspaces := map[1 := Workspace(1, true, Nobody, 0)])

  lemma OneWorkspace()
    ensures Step(START, Others(AddWorkspace(1, 1))) == START.(db := ONE_WORKSPACE)
  {
    var s' := Step(START, Others(AddWorkspace(1, 1)));
    assert s'.db == ONE_WORKSPACE && s'.effects == map[];
  }

  lemma OneAccepted()
    ensures Step(START.(db := ONE_WORKSPACE), Others(AcceptTx(5, 1, Stage))) ==
            System(QueuedRow(), map[5 := FE.INITIAL], map[], Booting, map[], {})
  {
    var s' := Step(START.(db := ONE_WORKSPACE), Others(AcceptTx(5, 1, Stage)));
    assert s'.db == QueuedRow() && s'.effects == map[5 := FE.INITIAL];
  }

  /** One stage operation is accepted, found and claimed. */
  lemma ClaimDispatches() returns (es: seq<Event>)
    ensures Run(es) == Dispatched(BEGUN)
  {
    hide Run, ClaimFile, CanClaimFile;
    es := OneIsFound();
    RunOneMore(es, Claim(true, true, true));
    es := es + [Claim(true, true, true)];
    OneIsClaimed();
    assert Dispatched(BEGUN).effects == map[5 := FE.INITIAL][5 := BEGUN];
  }

  lemma OneIsClaimed()
    ensures CanClaimFile(QueuedRow(), 5) && ClaimFile(QueuedRow(), 5) == Dispatched(BEGUN).db
  {
  }

  lemma OneIsFound() returns (es: seq<Event>)
    ensures Run(es) == System(QueuedRow(), map[5 := FE.INITIAL], map[], Scanning([5]), map[], {})
  {
    hide RecoverStartup, Run;
    es := OneIsQueued();
    RunOneMore(es, Startup);
    es := es + [Startup];
    NothingToRecover();
    RunOneMore(es, Scan([5]));
    es := es + [Scan([5])];
  }

  lemma NothingToRecover()
    ensures RecoverStartup(QueuedRow()) == QueuedRow()
  {
    assert RecoverStartup(QueuedRow()).files == QueuedRow().files;
  }

  /** One move of the running call or of its helper. */
  lemma MoveRuns(es: seq<Event>, e: FE.State, move: FE.Event, e': FE.State) returns (es': seq<Event>)
    requires Run(es) == Dispatched(e) && FE.Step(e, move) == e'
    requires CallMove(move) || (FE.ByHelper(move) && !move.Crash?)
    ensures Run(es') == Dispatched(e')
  {
    var event := if FE.ByHelper(move) then Outside(5, move) else Call(move);
    RunOneMore(es, event);
    es' := es + [event];
  }

  const OFFERED := BEGUN.(receipt := FE.Dispatching, intent := 5, helper := FE.Offering(3), call := FE.Waiting,
                          launches := 1, sent := true)

  const LAUNCHED := BEGUN.(receipt := FE.Dispatching, intent := 5, helper := FE.Idle, launches := 1,
                           call := FE.Attached)

  lemma HelperIsLaunched() returns (es: seq<Event>)
    ensures Run(es) == Dispatched(LAUNCHED)
  {
    es := ClaimDispatches();
    es := MoveRuns(es, BEGUN, FE.Read, BEGUN.(call := FE.Claiming));
    var e := BEGUN.(receipt := FE.Dispatching, intent := 5, call := FE.Launching);
    es := MoveRuns(es, BEGUN.(call := FE.Claiming), FE.Save(true, true), e);
    es := MoveRuns(es, e, FE.Launch(true), LAUNCHED);
  }

  lemma HelperOffers() returns (es: seq<Event>)
    ensures Run(es) == Dispatched(OFFERED)
  {
    es := HelperIsLaunched();
    var e1 := LAUNCHED;
    var e2 := e1.(helper := FE.Working, sent := true, call := FE.Waiting);
    es := MoveRuns(es, e1, FE.Send(true, true), e2);
    es := MoveRuns(es, e2, FE.HelperOffer(3), OFFERED);
  }

  const AUTHORIZED := OFFERED.(receipt := FE.Prepared(3), helper := FE.Authorized(3), call := FE.Listening)

  lemma HelperIsAuthorized() returns (es: seq<Event>)
    ensures Run(es) == Dispatched(AUTHORIZED)
  {
    es := HelperOffers();
    es := MoveRuns(es, OFFERED, FE.SeePrepared, OFFERED.(call := FE.Saving(3)));
    var e := OFFERED.(receipt := FE.Prepared(3), call := FE.Acking(3));
    es := MoveRuns(es, OFFERED.(call := FE.Saving(3)), FE.Save(true, true), e);
    es := MoveRuns(es, e, FE.Acknowledge, AUTHORIZED);
  }

  const ANSWERED := REJECTED.(receipt := FE.Prepared(3), helper := FE.Exited(FE.Printed(FE.Result(3, 9))),
                              call := FE.Listening)

  lemma HelperPublishes() returns (es: seq<Event>)
    ensures Run(es) == Dispatched(ANSWERED)
  {
    es := HelperIsAuthorized();
    var r := FE.Result(3, 9);
    var e := AUTHORIZED.(helper := FE.Published(r), disk := r, publications := [r]);
    es := MoveRuns(es, AUTHORIZED, FE.HelperPublish(9), e);
    es := MoveRuns(es, e, FE.HelperPrint, ANSWERED);
  }

  /** The result is collected and recorded; the check that follows reports its own error. */
  lemma CheckRejects() returns (es: seq<Event>)
    ensures Run(es) == Dispatched(REJECTED)
  {
    var r := FE.Result(3, 9);
    es := HelperPublishes();
    var e := ANSWERED;
    es := MoveRuns(es, e, FE.Collect, e.(call := FE.Closing(FE.Got(r))));
    var e1 := e.(helper := FE.Absent, call := FE.Storing(r));
    es := MoveRuns(es, e.(call := FE.Closing(FE.Got(r))), FE.Retire(true, true), e1);
    var e2 := e1.(receipt := FE.Applied(r), call := FE.Checking(r));
    es := MoveRuns(es, e1, FE.Save(true, true), e2);
    es := MoveRuns(es, e2, FE.Check(false, true), REJECTED);
  }

  /** The settlement that the running supervisor makes of a rejected call. */
  lemma RejectedSettles(s: System)
    requires s == Dispatched(REJECTED.(call := FE.NoCall)).(phase := Settling(5, 2), repairs := map[5 := Failed],
                                                            late := {5})
    ensures var s' := Step(s, SettleNow(true, true, false));
            && 5 in s'.db.files && s'.db.files[5].state.Failed? && s'.late == {5} && s'.effects == s.effects
            && 1 in s'.db.workspaces && s'.db.workspaces[1].writer.Nobody?
  {
  }

  /** Without the premise: the check's own error settles the row as failed, and the workspace
      is given back, although the stage operation was published and its receipt says so. */
  lemma FailedYetPublished() returns (es: seq<Event>)
    ensures var s := Run(es);
            && 5 in s.db.files && s.db.files[5].state.Failed? && 5 in s.late
            && 1 in s.db.workspaces && s.db.workspaces[1].writer.Nobody?
            && 5 in s.effects && s.effects[5].publications == [FE.Result(3, 9)]
            && s.effects[5].receipt == FE.Applied(FE.Result(3, 9))
  {
    hide Run, Step;
    es := CallIsRejected();
    var e := REJECTED.(call := FE.NoCall);
    RunOneMore(es, SettleNow(true, true, false));
    es := es + [SettleNow(true, true, false)];
    RejectedSettles(Dispatched(e).(phase := Settling(5, 2), repairs := map[5 := Failed], late := {5}));
  }

  lemma CallIsRejected() returns (es: seq<Event>)
    ensures Run(es) == Dispatched(REJECTED.(call := FE.NoCall)).(
                         phase := Settling(5, 2), repairs := map[5 := Failed], late := {5})
  {
    hide Run, Step;
    es := CheckRejects();
    RunOneMore(es, CallEnded(true));
    es := es + [CallEnded(true)];
    RejectionIsConcluded();
  }

  lemma RejectionIsConcluded()
    ensures Step(Dispatched(REJECTED), CallEnded(true)) ==
            Dispatched(REJECTED.(call := FE.NoCall)).(phase := Settling(5, 2), repairs := map[5 := Failed], late := {5})
  {
    hide DoCallEnded;
    ThrownShape(Dispatched(REJECTED), 5, true, REJECTED.(call := FE.NoCall));
  }
}
