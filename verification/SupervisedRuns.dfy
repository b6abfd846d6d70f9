/** The file supervisor keeps the side that the reservation rules expect of it: every run of
    FileOperations, crashes and lost replies included, is a legal list of transactions on the rows. */
module SupervisedRuns {
  import opened Reservations
  import opened ReservationRules
  import opened PreviewLeases
  import FO = FileOperations

  /** The transactions that one event commits, in order. */
  function Committed(s: FO.System, e: FO.Event): (txs: seq<Tx>)
    requires FO.Enabled(s, e)
  {
    match e
    case Others(tx) => [tx]
    case Startup => [RecoverStartupTx]
    case Repair(x, committed, _) => if committed then [SettleTx(x, s.repairs[x], s.db.files[x].epoch)] else []
    case Claim(committed, _, _) => if committed then [ClaimFileTx(s.phase.todo[0])] else []
    case SettleNow(committed, _, _) => if committed then [SettleTx(s.phase.x, s.repairs[s.phase.x], s.phase.epoch)]
      else []
    case InspectEnded(committed, refused) =>
      (if committed then [FinishInspectionTx(s.phase.x)] else []) + if refused then [FailInspectionTx(s.phase.x)]
        else []
    case _ => []
  }

  function ApplyAll(d: Db, txs: seq<Tx>): (d': Db) {
    if txs == [] then d else Apply(ApplyAll(d, txs[..|txs| - 1]), txs[|txs| - 1])
  }

  predicate KeptAll(d: Db, txs: seq<Tx>) {
    txs == [] || (KeptAll(d, txs[..|txs| - 1]) && CallerKeeps(ApplyAll(d, txs[..|txs| - 1]), txs[|txs| - 1]))
  }

  lemma OneCommitted(d: Db, tx: Tx)
    ensures ApplyAll(d, [tx]) == Apply(d, tx)
    ensures CallerKeeps(d, tx) ==> KeptAll(d, [tx])
  {
    assert [tx][..0] == [];
  }

  lemma TwoCommitted(d: Db, a: Tx, b: Tx)
    ensures ApplyAll(d, [a] + [b]) == Apply(Apply(d, a), b)
    ensures CallerKeeps(d, a) && CallerKeeps(Apply(d, a), b) ==> KeptAll(d, [a] + [b])
  {
    OneCommitted(d, a);
    assert ([a] + [b])[..1] == [a];
  }

  lemma NoneCommitted(d: Db)
    ensures ApplyAll(d, []) == d && KeptAll(d, [])
  {
  }

  ghost predicate Commits(s: FO.System, e: FO.Event)
    requires FO.Enabled(s, e)
  {
    FO.Do(s, e).db == ApplyAll(s.db, Committed(s, e)) && KeptAll(s.db, Committed(s, e))
  }

  lemma EventCommits(s: FO.System, e: FO.Event)
    requires FO.Inv(s) && FO.Enabled(s, e)
    ensures Commits(s, e)
  {
    hide FO.Inv, FO.Enabled, FO.Do, Committed, Commits;
    if e.Others? || e.Startup? { RowsCommit(s, e); }
    else if e.Claim? { ClaimCommits(s, e); }
    else if e.Repair? || e.SettleNow? { SettlementCommits(s, e); }
    else if e.InspectEnded? { InspectionCommits(s, e); }
    else { MoveCommits(s, e); }
  }

  lemma RowsCommit(s: FO.System, e: FO.Event)
    requires FO.Enabled(s, e) && (e.Others? || e.Startup?)
    ensures Commits(s, e)
  {
    hide ApplyAll, KeptAll, RecoverStartup;
    var tx := if e.Others? then e.tx else RecoverStartupTx;
    OneCommitted(s.db, tx);
    StartupIsTx(s.db);
    hide Apply;
  }

  lemma StartupIsTx(d: Db)
    ensures Apply(d, RecoverStartupTx) == RecoverStartup(d)
  {
    hide RecoverStartup;
  }

  lemma MoveCommits(s: FO.System, e: FO.Event)
    requires FO.Enabled(s, e) && !e.Others? && !e.Startup? && !e.Claim? && !e.Repair? && !e.SettleNow?
    requires !e.InspectEnded?
    ensures Commits(s, e)
  {
    hide Apply, ApplyAll, KeptAll, FO.DoClaim, FO.SettleRow;
    NoneCommitted(s.db);
  }

  lemma ClaimIsTx(d: Db, x: Id)
    requires CanClaimFile(d, x) && d.files[x].state.Queued?
    ensures Apply(d, ClaimFileTx(x)) == ClaimFile(d, x) && CallerKeeps(d, ClaimFileTx(x))
  {
    hide CanClaimFile, ClaimFile;
  }

  lemma ClaimCommits(s: FO.System, e: FO.Event)
    requires FO.Inv(s) && FO.Enabled(s, e) && e.Claim?
    ensures Commits(s, e)
  {
    hide ApplyAll, KeptAll, Apply, FO.Do, FO.Inv, ClaimFile, CanClaimFile, CallerKeeps;
    var x := s.phase.todo[0];
    assert x in s.phase.todo;
    FO.ScannedRow(s, x);
    FO.ClaimShape(s, e.committed, e.replied, e.built);
    if e.committed {
      ClaimIsTx(s.db, x);
      OneCommitted(s.db, ClaimFileTx(x));
    } else {
      NoneCommitted(s.db);
    }
  }

  lemma SettlementIsTx(d: Db, x: Id, state: FileState, epoch: nat)
    ensures CallerKeeps(d, SettleTx(x, state, epoch)) <==>
              !(state.Uncertain? && x in d.files && d.files[x].state.Queued?)
  {
  }

  /** The repair of an uncertain outcome never belongs to a queued row. */
  lemma RepairKeeps(s: FO.System, x: Id)
    requires FO.Inv(s) && x in s.repairs && x in s.db.files
    ensures !(s.repairs[x].Uncertain? && s.db.files[x].state.Queued?)
  {
    hide FO.Excused, FO.RowFits, FileRules, FO.PhaseInv;
    FO.RowOf(s, x);
  }

  lemma SettlementCommits(s: FO.System, e: FO.Event)
    requires FO.Inv(s) && FO.Enabled(s, e) && (e.Repair? || e.SettleNow?)
    ensures Commits(s, e)
  {
    hide ApplyAll, KeptAll, Apply, CallerKeeps, FO.Do, FO.Inv;
    FO.SettlementShape(s, e);
    var x := if e.Repair? then e.x else s.phase.x;
    var epoch := if e.Repair? then s.db.files[x].epoch else s.phase.epoch;
    RepairKeeps(s, x);
    SettlementIsTx(s.db, x, s.repairs[x], epoch);
    OneCommitted(s.db, SettleTx(x, s.repairs[x], epoch));
    NoneCommitted(s.db);
  }

  lemma NotingFails(d: Db, x: Id)
    ensures Apply(d, FailInspectionTx(x)) == FailInspection(d, x)
    ensures CallerKeeps(d, FailInspectionTx(x)) && CallerKeeps(d, FinishInspectionTx(x))
  {
    hide FailInspection;
  }

  lemma InspectionCommits(s: FO.System, e: FO.Event)
    requires FO.Enabled(s, e) && e.InspectEnded?
    ensures Commits(s, e)
  {
    hide Apply, ApplyAll, KeptAll, FailInspection, CallerKeeps, FO.Do;
    FO.InspectEndedShape(s, e.committed, e.refused);
    var x := s.phase.x;
    NoneCommitted(s.db);
    OneCommitted(s.db, FinishInspectionTx(x));
    OneCommitted(s.db, FailInspectionTx(x));
    TwoCommitted(s.db, FinishInspectionTx(x), FailInspectionTx(x));
    NotingFails(s.db, x);
    NotingFails(Apply(s.db, FinishInspectionTx(x)), x);
    var none: seq<Tx> := [];
    assert [FinishInspectionTx(x)] + none == [FinishInspectionTx(x)] && none + none == none;
    assert none + [FailInspectionTx(x)] == [FailInspectionTx(x)];
  }

  /** All transactions of a run, in the order in which they committed. */
  function TxsOf(es: seq<FO.Event>): (txs: seq<Tx>)
    decreases |es|
  {
    if es == [] then []
    else
      var before, e := es[..|es| - 1], es[|es| - 1];
      TxsOf(before) + if FO.Enabled(FO.Run(before), e) then Committed(FO.Run(before), e) else []
  }

  lemma {:induction false} AfterAll(txs: seq<Tx>, more: seq<Tx>)
    requires Legal(txs) && KeptAll(After(txs), more)
    ensures After(txs + more) == ApplyAll(After(txs), more) && Legal(txs + more)
    decreases |more|
  {
    hide Apply, CallerKeeps;
    if more == [] {
      assert txs + more == txs;
    } else {
      AfterAll(txs, more[..|more| - 1]);
      assert (txs + more)[..|txs + more| - 1] == txs + more[..|more| - 1];
    }
  }

  /** So the rows of every run are those of a legal list of transactions: what is proved of the
      latter holds of the supervised system without a premise. */
  lemma {:induction false} SupervisedIsLegal(es: seq<FO.Event>)
    ensures Legal(TxsOf(es)) && After(TxsOf(es)) == FO.Run(es).db
    decreases |es|
  {
    hide FO.Enabled, FO.Do, FO.Inv, Committed;
    if es == [] {
    } else {
      var before, e := es[..|es| - 1], es[|es| - 1];
      SupervisedIsLegal(before);
      FO.RunKeepsInv(before);
      if FO.Enabled(FO.Run(before), e) {
        EventCommits(FO.Run(before), e);
        AfterAll(TxsOf(before), Committed(FO.Run(before), e));
      } else {
        assert TxsOf(before) + [] == TxsOf(before);
      }
    }
  }

  /** In every run of the system, whatever crashes: a stage, unstage or commit that is dispatching or
      uncertain and unacknowledged is alone in its project, among files, conversations and previews. */
  lemma PendingGitIsAlone(es: seq<FO.Event>, x: Id)
    requires x in FO.Run(es).db.files && IsGit(FO.Run(es).db.files[x]) && Unresolved(FO.Run(es).db.files[x])
    ensures HasProjectAlone(FO.Run(es).db, x)
    ensures forall p :: p in FO.Run(es).db.previews && !FO.Run(es).db.previews[p].retired ==>
              var d := FO.Run(es).db;
              && d.previews[p].workspace in d.workspaces && d.files[x].workspace in d.workspaces
              && d.workspaces[d.previews[p].workspace].project != d.workspaces[d.files[x].workspace].project
  {
    hide FO.Run, HasProjectAlone;
    SupervisedIsLegal(es);
    GitOperationIsAlone(TxsOf(es), x);
    forall p | p in After(TxsOf(es)).previews && !After(TxsOf(es)).previews[p].retired
      ensures var d := After(TxsOf(es));
              && d.previews[p].workspace in d.workspaces && d.files[x].workspace in d.workspaces
              && d.workspaces[d.previews[p].workspace].project != d.workspaces[d.files[x].workspace].project
    {
      LivePreviewExcludesGit(TxsOf(es), p, x);
    }
  }

  /** And in every run the preview rows keep their rules, and the lease rules exactly under current claims. */
  lemma PreviewsKeepTheirRules(es: seq<FO.Event>)
    ensures PreviewRules(FO.Run(es).db)
    ensures LeaseRules(FO.Run(es).db) <==> ClaimsCurrent(TxsOf(es))
  {
    SupervisedIsLegal(es);
    RunKeepsRules(TxsOf(es));
    LeasesHoldExactly(TxsOf(es));
  }
}
