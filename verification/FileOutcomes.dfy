/** What the answers of the file supervisor mean for the rows: how the end of a call settles its row
    and its reservation, and which queued rows an uncertain operation takes down
    (apps/supervisor/src/files.ts). */
module FileOutcomes {
  import opened Reservations
  import opened ReservationRules
  import opened PreviewLeases
  import opened SupervisedRuns
  import FO = FileOperations
  import FA = FileAgreement

  // ----- what waits ---------------------------------------------------------------------------

  /** No row is queued in the workspace of an operation that is uncertain and not acknowledged. */
  predicate QueueClear(d: Db) {
    forall x, y :: x in d.files && y in d.files
                   && d.files[x].state.Uncertain? && !d.files[x].acknowledged && d.files[y].state.Queued? ==>
      d.files[x].workspace != d.files[y].workspace
  }

  /** Rows keep their workspace; nothing becomes queued, or uncertain, or unacknowledged. */
  predicate Quieter(d: Db, d': Db) {
    && d'.files.Keys == d.files.Keys
    && forall x :: x in d.files ==>
         && d'.files[x].workspace == d.files[x].workspace
         && (d'.files[x].state.Queued? ==> d.files[x].state.Queued?)
         && (d'.files[x].state.Uncertain? && !d'.files[x].acknowledged ==>
               d.files[x].state.Uncertain? && !d.files[x].acknowledged)
  }

  lemma QuieterKeeps(d: Db, d': Db)
    requires QueueClear(d) && Quieter(d, d')
    ensures QueueClear(d')
  {
  }

  lemma UncertainKeepsQueue(d: Db, x: Id, epoch: nat)
    requires QueueClear(d) && x in d.files && d.files[x].workspace in d.workspaces
    ensures QueueClear(Settle(d, x, Uncertain, epoch))
  {
    var w := d.workspaces[d.files[x].workspace];
    if !(w.writer == FileWriter(x) && epoch != 0 && w.epoch != epoch)
       && (d.files[x].state.Queued? || d.files[x].state.Dispatching?) {
      UncertainFailsTheQueued(d, x, epoch);
      hide Settle, GitOfOneProject;
      var d' := Settle(d, x, Uncertain, epoch);
      forall y, z | y in d'.files && z in d'.files && d'.files[y].state.Uncertain? && !d'.files[y].acknowledged
                    && d'.files[z].state.Queued?
        ensures d'.files[y].workspace != d'.files[z].workspace
      {
        assert z != x && !Beside(d, x, z) && (y == x || d.files[y].state.Uncertain?);
      }
    }
  }

  lemma StartupKeepsQueue(d: Db)
    requires QueueClear(d)
    ensures QueueClear(RecoverStartup(d))
  {
    StartupFailsTheQueued(d);
    hide RecoverStartup, GitOfOneProject;
    var d' := RecoverStartup(d);
    forall y, z | y in d'.files && z in d'.files && d'.files[y].state.Uncertain? && !d'.files[y].acknowledged
                  && d'.files[z].state.Queued?
      ensures d'.files[y].workspace != d'.files[z].workspace
    {
      assert d.files[z].state.Queued? && !(d.files[y].state.Dispatching? && Beside(d, y, z));
    }
  }

  lemma FileTxKeepsQueue(d: Db, tx: Tx)
    requires QueueClear(d) && IsFileTx(tx) && !tx.RecoverStartupTx? && !(tx.SettleTx? && tx.state.Uncertain?)
    ensures QueueClear(Apply(d, tx))
  {
    hide QueueClear, Apply, Settle, GitPending, ProjectHasWriter, ProjectHasReader;
    if tx.AcceptTx? {
      AcceptKeepsQueue(d, tx.x, tx.w, tx.kind);
      AcceptIsTx(d, tx);
    } else {
      if tx.SettleTx? { SettlingIsQuiet(d, tx); } else { OthersAreQuiet(d, tx); }
      QuieterKeeps(d, Apply(d, tx));
    }
  }

  lemma AcceptIsTx(d: Db, tx: Tx)
    requires tx.AcceptTx?
    ensures Apply(d, tx) == Accept(d, tx.x, tx.w, tx.kind)
  {
    hide Accept;
  }

  lemma SettlingIsQuiet(d: Db, tx: Tx)
    requires tx.SettleTx? && !tx.state.Uncertain?
    ensures Quieter(d, Apply(d, tx))
  {
    hide Settle;
    if tx.x in d.files && d.files[tx.x].workspace in d.workspaces && Settles(tx.state) {
      EndingIsQuiet(d, tx.x, tx.state, tx.epoch);
    }
  }

  lemma OthersAreQuiet(d: Db, tx: Tx)
    requires IsFileTx(tx) && !tx.AcceptTx? && !tx.SettleTx? && !tx.RecoverStartupTx?
    ensures Quieter(d, Apply(d, tx))
  {
    hide Settle, RecoverStartup, Accept, GitPending, ProjectHasWriter, ProjectHasReader;
  }

  lemma EndingIsQuiet(d: Db, x: Id, state: FileState, epoch: nat)
    requires x in d.files && d.files[x].workspace in d.workspaces && (state.Succeeded? || state.Failed?)
    ensures Quieter(d, Settle(d, x, state, epoch))
  {
  }

  lemma AcceptKeepsQueue(d: Db, x: Id, w: Id, kind: Kind)
    requires QueueClear(d)
    ensures QueueClear(Accept(d, x, w, kind))
  {
  }

  lemma TxKeepsQueue(d: Db, tx: Tx)
    requires QueueClear(d)
    ensures QueueClear(Apply(d, tx))
  {
    hide QueueClear, Settle, RecoverStartup;
    if tx.RecoverStartupTx? { StartupKeepsQueue(d); }
    else if tx.SettleTx? && tx.state.Uncertain? {
      if tx.x in d.files && d.files[tx.x].workspace in d.workspaces { UncertainKeepsQueue(d, tx.x, tx.epoch); }
    } else if IsFileTx(tx) { FileTxKeepsQueue(d, tx); }
    else { FO.FilesUntouched(d, tx); QuieterKeeps(d, Apply(d, tx)); }
  }

  /** Over every list of transactions whatever: nothing waits in the workspace of an operation that is
      uncertain and not acknowledged, so nothing can follow it there unnoticed. */
  lemma {:induction false} NothingWaitsBehindDoubt(txs: seq<Tx>)
    ensures QueueClear(After(txs))
    decreases |txs|
  {
    hide QueueClear, Apply;
    if txs == [] {
      EmptyIsClear();
    } else {
      NothingWaitsBehindDoubt(txs[..|txs| - 1]);
      TxKeepsQueue(After(txs[..|txs| - 1]), txs[|txs| - 1]);
    }
  }

  lemma EmptyIsClear()
    ensures QueueClear(EMPTY)
  {
  }

  lemma NothingWaitsInAnyRun(es: seq<FO.Event>, x: Id, y: Id)
    requires x in FO.Run(es).db.files && y in FO.Run(es).db.files
    requires FO.Run(es).db.files[x].state.Uncertain? && !FO.Run(es).db.files[x].acknowledged
    requires FO.Run(es).db.files[x].workspace == FO.Run(es).db.files[y].workspace
    ensures !FO.Run(es).db.files[y].state.Queued?
  {
    hide FO.Run;
    SupervisedIsLegal(es);
    NothingWaitsBehindDoubt(TxsOf(es));
  }

  // ----- from doubt to release ------------------------------------------------------------------

  /** The row alone changes, and of it the inspection alone. */
  predicate Notes(d: Db, d': Db, x: Id, inspection: Inspection)
    requires x in d.files
  {
    d' == d.(files := d.files[x := d.files[x].(inspection := inspection)])
  }

  /** An inspection can be requested for an uncertain row that owns its workspace under that epoch, again
      after it was not available, and then for the epoch of the first request. */
  lemma InspectionIsRequested(d: Db, x: Id, epoch: nat)
    requires OwnsEpoch(d, x, epoch)
    ensures d.files[x].state.Uncertain? && d.files[x].inspection.Uninspected? ==>
              Notes(d, RequestInspection(d, x, epoch), x, Requested(epoch))
    ensures d.files[x].state.Uncertain? && d.files[x].inspection.Unavailable? ==>
              Notes(d, RequestInspection(d, x, epoch), x, Requested(d.files[x].inspection.expected))
    ensures !d.files[x].state.Uncertain? ==> RequestInspection(d, x, epoch) == d
    ensures d.files[x].inspection.Requested? || d.files[x].inspection.Ready? || d.files[x].inspection.Consumed? ==>
              RequestInspection(d, x, epoch) == d
  {
  }

  /** Anybody else's request, and a failure of what was not requested, change nothing; a failed inspection
      is not available, and keeps the epoch that it was requested for. */
  lemma InspectionIsRefused(d: Db, x: Id, epoch: nat)
    ensures !OwnsEpoch(d, x, epoch) ==> RequestInspection(d, x, epoch) == d
    ensures x in d.files && d.files[x].inspection.Requested? ==>
              Notes(d, FailInspection(d, x), x, Unavailable(d.files[x].inspection.expected))
    ensures !(x in d.files && d.files[x].inspection.Requested?) ==> FailInspection(d, x) == d
  {
  }

  /** A finished inspection fences what came before it: the workspace is still the operation's, under an
      epoch drawn for the purpose, which the inspection now waits for. */
  lemma InspectionFences(d: Db, x: Id)
    requires CanInspect(d, x)
    ensures var d', w := FinishInspection(d, x), d.files[x].workspace;
            && d'.files.Keys == d.files.Keys && d'.files[x] == d.files[x].(inspection := Ready(d'.next))
            && d'.next == d.next + 1 && OwnsEpoch(d', x, d'.next)
            && (forall y :: y in d.files && y != x ==> d'.files[y] == d.files[y])
            && (forall v :: v in d.workspaces && v != w ==> v in d'.workspaces && d'.workspaces[v] == d.workspaces[v])
            && d'.workspaces[w] == d.workspaces[w].(epoch := d'.next)
  {
  }

  /** The way out of doubt, whatever else is in the rows: request, inspection and release of the epoch it
      gave acknowledge the operation and free its workspace, and leave its state uncertain. Any other
      epoch than that releases nothing. */
  lemma DoubtIsReleased(d: Db, x: Id, epoch: nat, other: nat)
    requires OwnsEpoch(d, x, epoch) && d.files[x].state.Uncertain? && d.files[x].inspection.Uninspected?
    requires PreviewRules(d) && other != d.next + 1
    ensures var asked := Apply(d, RequestInspectionTx(x, epoch));
            var ready := Apply(asked, FinishInspectionTx(x));
            var w, freed := d.files[x].workspace, Apply(ready, ReleaseFileTx(x, d.next + 1));
            && Apply(ready, ReleaseFileTx(x, other)) == ready
            && x in freed.files && freed.files[x] == d.files[x].(acknowledged := true, inspection := Consumed)
            && w in freed.workspaces && freed.workspaces[w].writer.Nobody? && freed.workspaces[w].epoch == d.next + 1
  {
    var asked := Apply(d, RequestInspectionTx(x, epoch));
    InspectionIsRequested(d, x, epoch);
    assert asked == RequestInspection(d, x, epoch) && CanInspect(asked, x);
    InspectionFences(asked, x);
    assert Apply(asked, FinishInspectionTx(x)) == FinishInspection(asked, x);
  }

  // ----- a conversation's slot --------------------------------------------------------------------

  /** A new generation of the conversation that has the slot takes over the right to give it back; the
      epoch stays, and nobody else can take the slot that way. */
  lemma GenerationMovesOn(d: Db, w: Id, session: Id, generation: nat, session': Id, next: nat)
    requires w in d.workspaces && d.workspaces[w].writer == Conversation(session, generation)
    ensures session' == session ==>
              var d' := Regenerate(d, w, session', next);
              && d' == d.(workspaces := d.workspaces[w := d.workspaces[w].(writer := Conversation(session, next))])
              && (generation != next ==> ReleaseConversation(d', w, session, generation) == d')
              && (session !in d.busy ==> ReleaseConversation(d', w, session, next)
                                         == d.(workspaces := d.workspaces[w := d.workspaces[w].(writer := Nobody)]))
    ensures session' != session ==> Regenerate(d, w, session', next) == d
    ensures forall v :: v !in d.workspaces || !d.workspaces[v].writer.Conversation? ==>
              Regenerate(d, v, session', next) == d
  {
    var d' := Regenerate(d, w, session, next);
    var freed := ReleaseConversation(d', w, session, next);
    assert session !in d.busy ==> freed.workspaces == d.workspaces[w := d.workspaces[w].(writer := Nobody)];
  }

  // ----- who is admitted ------------------------------------------------------------------------------

  /** The workspaces of a project. */
  function Of(d: Db, project: Id): (ws: set<Id>) {
    set w | w in d.workspaces && d.workspaces[w].project == project
  }

  /** A stage, unstage or commit in one of these workspaces that is dispatching or uncertain and not yet
      acknowledged. */
  predicate GitUnderWay(d: Db, ws: set<Id>) {
    exists x :: x in d.files && d.files[x].workspace in ws && !d.files[x].kind.Save? && !d.files[x].acknowledged
                && (d.files[x].state.Dispatching? || d.files[x].state.Uncertain?)
  }

  /** An operation is admitted exactly when its workspace is ready, free and of a project that is neither
      archived nor busy with storage, no Git operation is under way in the project, and, for a Git
      operation, nobody at all writes or reads there. */
  lemma FileClaimExactly(d: Db, x: Id)
    requires x in d.files && d.files[x].workspace in d.workspaces
    ensures var row := d.workspaces[d.files[x].workspace];
            var ws := Of(d, row.project);
            CanClaimFile(d, x) <==>
              && row.ready && row.writer.Nobody? && row.project !in d.archived && row.project !in d.storage
              && !GitUnderWay(d, ws)
              && (!d.files[x].kind.Save? ==>
                    && (forall w :: w in ws ==> d.workspaces[w].writer.Nobody?)
                    && (forall r :: r in d.readers ==> d.readers[r].workspace !in ws))
  {
    PendingIsUnderWay(d, d.workspaces[d.files[x].workspace].project);
  }

  lemma PendingIsUnderWay(d: Db, project: Id)
    ensures GitPending(d, project) <==> GitUnderWay(d, Of(d, project))
  {
    if GitPending(d, project) {
      var x :| x in d.files && IsGit(d.files[x]) && Unresolved(d.files[x])
               && d.files[x].workspace in d.workspaces && d.workspaces[d.files[x].workspace].project == project;
      assert d.files[x].workspace in Of(d, project);
    }
    if GitUnderWay(d, Of(d, project)) {
      var x :| x in d.files && d.files[x].workspace in Of(d, project) && !d.files[x].kind.Save?
               && !d.files[x].acknowledged && (d.files[x].state.Dispatching? || d.files[x].state.Uncertain?);
      assert IsGit(d.files[x]) && Unresolved(d.files[x]);
    }
  }

  /** A conversation, likewise; it may share the project with other conversations and with saves. */
  lemma ConversationClaimExactly(d: Db, w: Id)
    requires w in d.workspaces
    ensures var row := d.workspaces[w];
            CanClaimConversation(d, w) <==>
              && row.ready && row.writer.Nobody? && row.project !in d.archived && row.project !in d.storage
              && !GitUnderWay(d, Of(d, row.project))
  {
    PendingIsUnderWay(d, d.workspaces[w].project);
  }

  /** A request for an operation is taken exactly when it is new, its workspace can be used and no uncertain
      operation waits there to be acknowledged; it is queued then and owns nothing. */
  lemma RequestExactly(d: Db, x: Id, w: Id, kind: Kind)
    ensures var taken := && x !in d.files && w in d.workspaces && d.workspaces[w].ready
                         && d.workspaces[w].project !in d.archived
                         && forall y :: y in d.files && d.files[y].workspace == w && d.files[y].state.Uncertain? ==>
                              d.files[y].acknowledged;
            Accept(d, x, w, kind) ==
            if taken then d.(files := d.files[x := File(w, kind, Queued, 0, false, Uninspected)]) else d
  {
  }

  // ----- claims and settlements that come too late ------------------------------------------------

  /** A settlement under another epoch than the reservation's, or of a row that has ended, changes nothing. */
  lemma LateSettlement(d: Db, x: Id, state: FileState, epoch: nat)
    requires x in d.files && d.files[x].workspace in d.workspaces && Settles(state)
    requires var w := d.workspaces[d.files[x].workspace];
             || (w.writer == FileWriter(x) && epoch != 0 && w.epoch != epoch)
             || d.files[x].state.Succeeded? || d.files[x].state.Failed? || d.files[x].state.Uncertain?
    ensures Settle(d, x, state, epoch) == d
  {
  }

  /** A claim looks at the row's state only when it writes it: of a row that is queued no longer it takes
      the workspace and leaves the row as it is. */
  lemma LateClaim(d: Db, x: Id)
    requires CanClaimFile(d, x) && !d.files[x].state.Queued?
    ensures var d', w := ClaimFile(d, x), d.files[x].workspace;
            d'.files == d.files && w in d'.workspaces && d'.workspaces[w].writer == FileWriter(x)
  {
    hide GitPending, ProjectHasWriter, ProjectHasReader;
  }

  // ----- the end of a call ---------------------------------------------------------------------

  lemma CallConcludes(s: FO.System, retired: bool)
    requires FO.Enabled(s, FO.CallEnded(retired))
    ensures var s' := FO.Step(s, FO.CallEnded(retired));
            var x, outcome := s.phase.x, s.effects[s.phase.x].call.outcome;
            && s'.db == s.db && s'.phase == FO.Settling(x, s.phase.epoch) && x in s'.repairs
            && (outcome.Returned? ==> s'.repairs[x] == Succeeded && x in s'.results && s'.results[x] == outcome.result)
            && (outcome.Failed? ==>
                  s'.repairs[x] == if !retired || (s.effects[x].sent && !outcome.rejected) then Uncertain else Failed)
  {
    hide FO.FE.Step;
  }

  /** What the supervisor keeps for the row when a call has ended: the result it returned; or that it is
      uncertain, exactly if its helper is not known to be gone, or the request had been delivered and the
      error is no rejection; or else that it has failed. */
  lemma CallIsConcluded(es: seq<FO.Event>, retired: bool)
    requires FO.Enabled(FO.Run(es), FO.CallEnded(retired))
    ensures var s, s' := FO.Run(es), FO.Run(es + [FO.CallEnded(retired)]);
            var x, outcome := s.phase.x, s.effects[s.phase.x].call.outcome;
            && s'.db == s.db && s'.phase == FO.Settling(x, s.phase.epoch) && x in s'.repairs
            && (outcome.Returned? ==> s'.repairs[x] == Succeeded && x in s'.results && s'.results[x] == outcome.result)
            && (outcome.Failed? ==>
                  s'.repairs[x] == if !retired || (s.effects[x].sent && !outcome.rejected) then Uncertain else Failed)
  {
    hide FO.Run, FO.Enabled, FO.Step;
    FA.RunOneMore(es, FO.CallEnded(retired));
    CallConcludes(FO.Run(es), retired);
  }

  lemma OwnSettlement(d: Db, x: Id, state: FileState, epoch: nat)
    requires FileRules(d) && x in d.files && d.files[x].state.Dispatching? && Settles(state)
    requires epoch != 0 ==> d.files[x].epoch == epoch
    ensures var w, d' := d.files[x].workspace, Settle(d, x, state, epoch);
            && w in d.workspaces && d.workspaces[w].writer == FileWriter(x)
            && x in d'.files && d'.files[x] == d.files[x].(state := state) && w in d'.workspaces
            && d'.workspaces[w] == d.workspaces[w].(writer := if state.Uncertain? then FileWriter(x) else Nobody)
            && forall v :: v in d.workspaces && v != w ==> v in d'.workspaces && d'.workspaces[v] == d.workspaces[v]
  {
    hide GitAlone, FileRules;
    SlotOfRow(d, x);
    if state.Uncertain? { UncertainFailsTheQueued(d, x, epoch); }
    hide FailDependents;
  }

  /** What is kept for a row is what a committed settlement makes of it: the row takes that state and no
      other field, and its workspace is reserved no longer, unless the row is uncertain. */
  lemma SettlementCommits(es: seq<FO.Event>, replied: bool, again: bool)
    requires FO.Enabled(FO.Run(es), FO.SettleNow(true, replied, again))
    requires FO.Run(es).db.files[FO.Run(es).phase.x].state.Dispatching?
    ensures var s, s' := FO.Run(es), FO.Run(es + [FO.SettleNow(true, replied, again)]);
            var x := s.phase.x;
            var w := s.db.files[x].workspace;
            && x in s'.db.files && s'.db.files[x] == s.db.files[x].(state := s.repairs[x])
            && w in s.db.workspaces && s.db.workspaces[w].writer == FileWriter(x) && w in s'.db.workspaces
            && s'.db.workspaces[w].writer == (if s.repairs[x].Uncertain? then FileWriter(x) else Nobody)
            && forall v :: v in s.db.workspaces && v != w ==>
                 v in s'.db.workspaces && s'.db.workspaces[v] == s.db.workspaces[v]
  {
    var s, e := FO.Run(es), FO.SettleNow(true, replied, again);
    hide FO.Run, FO.Inv, FO.RowInv, FileRules, Settle, FO.Do;
    FA.RunOneMore(es, e);
    FO.RunKeepsInv(es);
    FO.RulesOf(s);
    FO.SettlingEpoch(s, e);
    FO.SettlementShape(s, e);
    FA.RepairsOpenRows(s, s.phase.x);
    FO.RepairSettles(s, s.phase.x);
    OwnSettlement(s.db, s.phase.x, s.repairs[s.phase.x], s.phase.epoch);
  }

  /** What is kept for a row is forgotten exactly when the supervisor hears that it was settled; until then
      it is kept for another try, and nothing kept for others moves. */
  lemma HeardIsForgotten(s: FO.System, e: FO.Event)
    requires (e.Repair? || e.SettleNow?) && FO.Enabled(s, e)
    ensures var x, s' := if e.Repair? then e.x else s.phase.x, FO.Do(s, e);
            && s'.repairs == (if e.replied then s.repairs - {x} else s.repairs)
            && s'.effects == s.effects && s'.results == s.results && s'.late == s.late
            && s'.phase == if e.SettleNow? && !e.again then FO.Resting else s.phase
  {
    hide FO.SettleRow;
  }

  lemma ScanGoesOn(s: FO.System, e: FO.Event)
    requires (e.Scan? || e.Skip? || e.GiveUp?) && FO.Enabled(s, e)
    ensures FO.Do(s, e) == s.(phase := if e.GiveUp? then FO.Resting
                                       else if e.Scan? then FO.Scanning(e.found) else FO.Scanning(s.phase.todo[1..]))
  {
  }

  /** What the row of an ended call is to say. */
  predicate SaysOfCall(state: FileState, e: FO.FE.State, retired: bool)
    requires e.call.Done?
  {
    && (e.call.outcome.Returned? ==> state.Succeeded?)
    && (e.call.outcome.Failed? ==>
          && (state.Uncertain? <==> !retired || (e.sent && !e.call.outcome.rejected))
          && (!state.Uncertain? ==> state.Failed?))
  }

  lemma CallerDispatches(s: FO.System)
    requires FO.Inv(s) && s.phase.Executing?
    ensures s.phase.x in s.db.files && s.db.files[s.phase.x].state.Dispatching?
  {
    hide FO.RowInv, FileRules;
  }

  lemma CallIsOver(s: FO.System, retired: bool)
    requires FO.Enabled(s, FO.CallEnded(retired))
    ensures s.phase.Executing? && s.phase.x in s.effects && s.effects[s.phase.x].call.Done?
  {
  }

  lemma MaySettle(s: FO.System, replied: bool, again: bool)
    requires s.phase.Settling? && s.phase.x in s.repairs && s.phase.x in s.db.files && (replied ==> !again)
    ensures FO.Enabled(s, FO.SettleNow(true, replied, again))
  {
  }

  /** So from the call to the committed settlement: the row says what became of the call, and the
      reservation of its workspace, which was its own, is given up unless the row is uncertain. */
  lemma EndedCallSettles(es: seq<FO.Event>, retired: bool, replied: bool, again: bool)
    requires FO.Enabled(FO.Run(es), FO.CallEnded(retired)) && (replied ==> !again)
    ensures var s, s' := FO.Run(es), FO.Run(es + [FO.CallEnded(retired)] + [FO.SettleNow(true, replied, again)]);
            && s.phase.Executing? && s.phase.x in s.effects && s.effects[s.phase.x].call.Done?
            && s.phase.x in s.db.files && s.phase.x in s'.db.files
            && var x, w := s.phase.x, s.db.files[s.phase.x].workspace;
               && SaysOfCall(s'.db.files[x].state, s.effects[x], retired)
               && w in s'.db.workspaces
               && s'.db.workspaces[w].writer == if s'.db.files[x].state.Uncertain? then FileWriter(x) else Nobody
  {
    hide FO.Run, FO.Inv, FO.Step, FO.Enabled;
    var s, ended := FO.Run(es), es + [FO.CallEnded(retired)];
    CallIsOver(s, retired);
    FO.RunKeepsInv(es);
    CallerDispatches(s);
    CallIsConcluded(es, retired);
    MaySettle(FO.Run(ended), replied, again);
    SettlementCommits(ended, replied, again);
  }

  lemma ClaimUnbuilt(s: FO.System, heard: bool)
    requires FO.Inv(s) && FO.Enabled(s, FO.Claim(true, heard, false))
    ensures s.phase.Scanning? && s.phase.todo != []
    ensures var s', x := FO.Step(s, FO.Claim(true, heard, false)), s.phase.todo[0];
            && x in s'.db.files && s'.db.files[x].state.Dispatching? && x in s'.repairs && s'.repairs[x] == Failed
            && s'.phase.Settling? && s'.phase.x == x
  {
    hide ClaimFile, CanClaimFile, FO.Inv, FO.RowInv, FileRules;
    var x := s.phase.todo[0];
    assert x in s.phase.todo;
    FO.RulesOf(s);
    FO.ScannedRow(s, x);
    FO.ClaimFileMoves(s.db, x);
  }

  /** A claim that committed but whose reply was lost, or whose command was not built, fails its row in
      the settlement and gives the workspace back. */
  lemma UnbuiltClaimSettles(es: seq<FO.Event>, heard: bool, replied: bool, again: bool)
    requires FO.Enabled(FO.Run(es), FO.Claim(true, heard, false)) && (replied ==> !again)
    ensures var s' := FO.Run(es + [FO.Claim(true, heard, false)] + [FO.SettleNow(true, replied, again)]);
            && FO.Run(es).phase.Scanning? && FO.Run(es).phase.todo != []
            && var x := FO.Run(es).phase.todo[0];
               && x in s'.db.files && s'.db.files[x].state.Failed?
               && s'.db.files[x].workspace in s'.db.workspaces
               && s'.db.workspaces[s'.db.files[x].workspace].writer.Nobody?
  {
    hide FO.Run, FO.Inv, FO.Step, FO.Enabled;
    var claimed := es + [FO.Claim(true, heard, false)];
    FO.RunKeepsInv(es);
    ClaimUnbuilt(FO.Run(es), heard);
    FA.RunOneMore(es, FO.Claim(true, heard, false));
    MaySettle(FO.Run(claimed), replied, again);
    SettlementCommits(claimed, replied, again);
  }
}
