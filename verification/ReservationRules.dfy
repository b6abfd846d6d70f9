/** What every transaction of Reservations keeps. */
module ReservationRules {
  import opened Reservations

  // ----- the rules -------------------------------------------------------------------

  ghost predicate Linked(d: Db) {
    && (forall x :: x in d.files ==> d.files[x].workspace in d.workspaces)
    && (forall p :: p in d.previews ==> d.previews[p].workspace in d.workspaces)
    && (forall r :: r in d.readers ==> d.readers[r].workspace in d.workspaces)
  }

  /** A file reservation names X exactly when X is dispatching or uncertain and unacknowledged. */
  ghost predicate ReservationExact(d: Db)
    requires Linked(d)
  {
    && (forall w :: w in d.workspaces && d.workspaces[w].writer.FileWriter? ==>
          var x := d.workspaces[w].writer.id;
          x in d.files && d.files[x].workspace == w && Unresolved(d.files[x]))
    && (forall x :: x in d.files && Unresolved(d.files[x]) ==>
          d.workspaces[d.files[x].workspace].writer == FileWriter(x))
  }

  ghost predicate RowsCoherent(d: Db)
    requires Linked(d)
  {
    forall x :: x in d.files ==>
      && (d.files[x].acknowledged ==> d.files[x].state.Uncertain?)
      && (!d.files[x].inspection.Uninspected? ==> d.files[x].state.Uncertain?)
      && (d.files[x].state.Dispatching? ==> d.files[x].epoch == d.workspaces[d.files[x].workspace].epoch)
  }

  ghost predicate OthersIdle(d: Db, home: Id, project: Id) {
    forall w :: w in d.workspaces && d.workspaces[w].project == project && w != home ==> d.workspaces[w].writer.Nobody?
  }

  ghost predicate NoReaders(d: Db, project: Id)
    requires Linked(d)
  {
    forall r :: r in d.readers ==> d.workspaces[d.readers[r].workspace].project != project
  }

  /** While a Git operation is pending, no other writer and no reader is in its project. */
  ghost predicate GitAlone(d: Db)
    requires Linked(d)
  {
    forall x :: x in d.files && IsGit(d.files[x]) && Unresolved(d.files[x]) ==>
      var project := d.workspaces[d.files[x].workspace].project;
      && OthersIdle(d, d.files[x].workspace, project)
      && NoReaders(d, project)
  }

  ghost predicate FileRules(d: Db) {
    Linked(d) && ReservationExact(d) && RowsCoherent(d) && GitAlone(d)
  }

  /** The preview machine, as far as the rows alone carry it. */
  ghost predicate PreviewRules(d: Db) {
    && (forall p :: p in d.previews ==>
          var row := d.previews[p];
          && (row.retired <==> row.lease == 0)
          && (Live(row.state) <==> !row.retired)
          && row.generation <= d.next && row.lease <= d.next)
    && (forall p, q ::
          p in LivePreviews(d) && q in LivePreviews(d) && d.previews[p].workspace == d.previews[q].workspace ==> p == q)
    && |LivePreviews(d)| <= 4
    && (forall w :: w in d.workspaces ==> d.workspaces[w].epoch <= d.next)
  }

  ghost predicate AllHeld(d: Db) {
    forall p :: p in d.previews && !d.previews[p].retired ==> LeaseHeld(d, p)
  }

  ghost predicate PreviewSlotsOwned(d: Db) {
    forall w :: w in d.workspaces && d.workspaces[w].writer.PreviewWriter? ==>
      var p := d.workspaces[w].writer.id;
      p in d.previews && !d.previews[p].retired && d.previews[p].writes && d.previews[p].workspace == w
  }

  ghost predicate ReadersOwned(d: Db) {
    forall r :: r in d.readers ==> r in d.previews && !d.previews[r].retired && !d.previews[r].writes
  }

  /** Every live preview finds its lease where its row says, and no other preview lease exists. */
  ghost predicate LeaseRules(d: Db) {
    AllHeld(d) && PreviewSlotsOwned(d) && ReadersOwned(d)
  }

  // ----- transactions as values ---------------------------------------------------------

  datatype Tx =
    | AddWorkspace(w: Id, project: Id)
    | SetReady(w: Id, ready: bool)
    | Environment(archived: set<Id>, storage: set<Id>, busy: set<Id>)
    | AcceptTx(x: Id, w: Id, kind: Kind)
    | ClaimFileTx(x: Id)
    | SettleTx(x: Id, state: FileState, epoch: nat)
    | RecoverStartupTx
    | RequestInspectionTx(x: Id, epoch: nat)
    | FinishInspectionTx(x: Id)
    | FailInspectionTx(x: Id)
    | ReleaseFileTx(x: Id, epoch: nat)
    | ClaimConversationTx(w: Id, session: Id, generation: nat)
    | RegenerateTx(w: Id, session: Id, generation: nat)
    | ReleaseConversationTx(w: Id, session: Id, generation: nat)
    | CreatePreviewTx(p: Id, w: Id, writes: bool)
    | PatchPreviewTx(p: Id, writes: bool)
    | StartPreviewTx(p: Id)
    | StopPreviewTx(p: Id, generation: nat)
    | DeletePreviewTx(p: Id)
    | StopAllPreviewsTx
    | ClaimPreviewTx(p: Id, seen: Preview)
    | MarkReadyTx(p: Id, generation: nat)
    | ForceStopTx(p: Id, generation: nat)
    | SettleRetirementTx(p: Id, generation: nat, outcome: PreviewState)
    | DoubtRetirementTx(p: Id, generation: nat)
    | FailWaitingTx(p: Id, seen: Preview)
    | RecoverPreviewTx(p: Id, generation: nat)

  predicate Settles(state: FileState) {
    state.Succeeded? || state.Failed? || state.Uncertain?
  }

  predicate Outcome(state: PreviewState) {
    state.Stopped? || state.Exited? || state.Broken?
  }

  predicate IsFileTx(tx: Tx) {
    || tx.AcceptTx? || tx.ClaimFileTx? || tx.SettleTx? || tx.RecoverStartupTx? || tx.RequestInspectionTx?
    || tx.FinishInspectionTx? || tx.FailInspectionTx? || tx.ReleaseFileTx?
  }

  predicate IsPreviewTx(tx: Tx) {
    || tx.CreatePreviewTx? || tx.PatchPreviewTx? || tx.StartPreviewTx? || tx.StopPreviewTx? || tx.DeletePreviewTx?
    || tx.StopAllPreviewsTx? || tx.ClaimPreviewTx? || tx.MarkReadyTx? || tx.ForceStopTx?
    || tx.SettleRetirementTx? || tx.DoubtRetirementTx? || tx.FailWaitingTx? || tx.RecoverPreviewTx?
  }

  function ApplyFile(d: Db, tx: Tx): (d': Db)
    requires IsFileTx(tx)
  {
    match tx
    case AcceptTx(x, w, kind) => Accept(d, x, w, kind)
    case ClaimFileTx(x) => if CanClaimFile(d, x) then ClaimFile(d, x) else d
    case SettleTx(x, state, epoch) =>
      if x in d.files && d.files[x].workspace in d.workspaces && Settles(state) then Settle(d, x, state, epoch) else d
    case RecoverStartupTx => RecoverStartup(d)
    case RequestInspectionTx(x, epoch) => RequestInspection(d, x, epoch)
    case FinishInspectionTx(x) => if CanInspect(d, x) then FinishInspection(d, x) else d
    case FailInspectionTx(x) => FailInspection(d, x)
    case ReleaseFileTx(x, epoch) => ReleaseFile(d, x, epoch)
  }

  function ApplyPreview(d: Db, tx: Tx): (d': Db)
    requires IsPreviewTx(tx)
  {
    match tx
    case CreatePreviewTx(p, w, writes) => CreatePreview(d, p, w, writes)
    case PatchPreviewTx(p, writes) => PatchPreview(d, p, writes)
    case StartPreviewTx(p) => StartPreview(d, p)
    case StopPreviewTx(p, generation) => StopPreview(d, p, generation)
    case DeletePreviewTx(p) => DeletePreview(d, p)
    case StopAllPreviewsTx => StopAllPreviews(d)
    case ClaimPreviewTx(p, seen) => ClaimPreview(d, p, seen)
    case MarkReadyTx(p, generation) => MarkReady(d, p, generation)
    case ForceStopTx(p, generation) => ForceStop(d, p, generation)
    case SettleRetirementTx(p, generation, state) =>
      if Outcome(state) then SettleRetirement(d, p, generation, state) else d
    case DoubtRetirementTx(p, generation) => DoubtRetirement(d, p, generation)
    case FailWaitingTx(p, _) => FailWaiting(d, p)
    case RecoverPreviewTx(p, generation) => RecoverPreview(d, p, generation)
  }

  function Apply(d: Db, tx: Tx): (d': Db) {
    if IsFileTx(tx) then ApplyFile(d, tx)
    else if IsPreviewTx(tx) then ApplyPreview(d, tx)
    else match tx
      case AddWorkspace(w, project) =>
        if w in d.workspaces then d
        else d.(workspaces := d.workspaces[w := Workspace(project, true, Nobody, 0)])
      case SetReady(w, ready) =>
        if w in d.workspaces then d.(workspaces := d.workspaces[w := d.workspaces[w].(ready := ready)]) else d
      case Environment(archived, storage, busy) => d.(archived := archived, storage := storage, busy := busy)
      case ClaimConversationTx(w, session, generation) => ClaimConversation(d, w, session, generation)
      case RegenerateTx(w, session, generation) => Regenerate(d, w, session, generation)
      case ReleaseConversationTx(w, session, generation) => ReleaseConversation(d, w, session, generation)
  }

  /** The claim writes the slot even when its row is no longer queued, and an uncertain
      settlement keeps no slot for a queued row; their caller must not let that happen. */
  predicate CallerKeeps(d: Db, tx: Tx) {
    && (tx.ClaimFileTx? && tx.x in d.files ==> d.files[tx.x].state.Queued?)
    && (tx.SettleTx? && tx.state.Uncertain? && tx.x in d.files ==> !d.files[tx.x].state.Queued?)
  }

  // ----- file rules over file transactions --------------------------------------------------

  /** Rows keep their place and kind, slots are given back at most, and nothing becomes unresolved. */
  ghost predicate Calmer(d: Db, d': Db) {
    && d'.files.Keys == d.files.Keys && d'.workspaces.Keys == d.workspaces.Keys && d'.readers == d.readers
    && (forall x :: x in d.files ==>
          && d'.files[x].workspace == d.files[x].workspace && d'.files[x].kind == d.files[x].kind
          && (Unresolved(d'.files[x]) ==> Unresolved(d.files[x])))
    && (forall w :: w in d.workspaces ==>
          && d'.workspaces[w].project == d.workspaces[w].project
          && (d'.workspaces[w].writer == d.workspaces[w].writer || d'.workspaces[w].writer.Nobody?))
  }

  lemma CalmerKeepsGit(d: Db, d': Db)
    requires Linked(d) && Linked(d') && GitAlone(d) && Calmer(d, d')
    ensures GitAlone(d')
  {
  }

  lemma AcceptKeeps(d: Db, x: Id, w: Id, kind: Kind)
    requires FileRules(d)
    ensures FileRules(Accept(d, x, w, kind))
  {
  }

  lemma ClaimFileKeeps(d: Db, x: Id)
    requires FileRules(d) && CanClaimFile(d, x) && d.files[x].state.Queued?
    ensures FileRules(ClaimFile(d, x))
  {
    hide ClaimFile, CanClaimFile, RowsCoherent, ReservationExact, GitAlone, GitPending;
    FileClaimMoves(d, x);
    ClaimKeepsExact(d, ClaimFile(d, x), x);
    ClaimKeepsCoherent(d, ClaimFile(d, x), x);
    if IsGit(d.files[x]) { ClaimHasProject(d, ClaimFile(d, x), x); }
    ClaimKeepsGit(d, ClaimFile(d, x), x);
  }

  /** A claim moves its row and its free slot, in a project without pending Git operation. */
  ghost predicate ClaimMoves(d: Db, d': Db, x: Id)
    requires Linked(d) && x in d.files
  {
    var w := d.files[x].workspace;
    && d'.files.Keys == d.files.Keys && d'.workspaces.Keys == d.workspaces.Keys
    && d'.readers == d.readers && d'.previews == d.previews
    && (forall y :: y in d.files && y != x ==> d'.files[y] == d.files[y])
    && (forall v :: v in d.workspaces && v != w ==> d'.workspaces[v] == d.workspaces[v])
    && d'.files[x] == d.files[x].(state := Dispatching, epoch := d'.workspaces[w].epoch)
    && d.workspaces[w].writer.Nobody? && d'.workspaces[w].writer == FileWriter(x)
    && d'.workspaces[w].project == d.workspaces[w].project && !GitPending(d, d.workspaces[w].project)
    && (IsGit(d.files[x]) ==>
          !ProjectHasWriter(d, d.workspaces[w].project) && !ProjectHasReader(d, d.workspaces[w].project))
  }

  lemma FileClaimMoves(d: Db, x: Id)
    requires FileRules(d) && CanClaimFile(d, x) && d.files[x].state.Queued?
    ensures Linked(d) && x in d.files && ClaimMoves(d, ClaimFile(d, x), x)
  {
    hide GitPending, ReservationExact, RowsCoherent, GitAlone, ProjectHasWriter, ProjectHasReader;
  }

  lemma ClaimKeepsExact(d: Db, d': Db, x: Id)
    requires FileRules(d) && x in d.files && d.files[x].state.Queued? && ClaimMoves(d, d', x)
    ensures Linked(d') && ReservationExact(d')
  {
    hide GitPending, GitAlone, ProjectHasWriter, ProjectHasReader;
  }

  lemma ClaimKeepsCoherent(d: Db, d': Db, x: Id)
    requires FileRules(d) && x in d.files && d.files[x].state.Queued? && ClaimMoves(d, d', x) && Linked(d')
    ensures RowsCoherent(d')
  {
    hide GitPending, GitAlone, ProjectHasWriter, ProjectHasReader;
  }

  lemma ClaimHasProject(d: Db, d': Db, x: Id)
    requires FileRules(d) && x in d.files && IsGit(d.files[x]) && ClaimMoves(d, d', x) && Linked(d')
    ensures var w := d.files[x].workspace;
            OthersIdle(d', w, d'.workspaces[w].project) && NoReaders(d', d'.workspaces[w].project)
  {
    hide GitPending, GitAlone, ReservationExact, RowsCoherent;
  }

  lemma ClaimKeepsGit(d: Db, d': Db, x: Id)
    requires FileRules(d) && x in d.files && d.files[x].state.Queued? && ClaimMoves(d, d', x) && Linked(d')
    requires IsGit(d.files[x]) ==>
      var w := d.files[x].workspace;
      OthersIdle(d', w, d'.workspaces[w].project) && NoReaders(d', d'.workspaces[w].project)
    ensures GitAlone(d')
  {
    hide RowsCoherent, ReservationExact, ProjectHasWriter, ProjectHasReader;
    var project := d.workspaces[d.files[x].workspace].project;
    forall y | y in d'.files && IsGit(d'.files[y]) && Unresolved(d'.files[y]) && y != x
      ensures d.workspaces[d.files[y].workspace].project != project
    {
      assert !GitPending(d, project);
    }
  }

  lemma FailDependentsKeeps(d: Db, xs: set<Id>)
    requires FileRules(d)
    ensures FileRules(FailDependents(d, xs))
  {
    var d' := FailDependents(d, xs);
    assert forall y :: y in d'.files ==> Unresolved(d'.files[y]) == Unresolved(d.files[y]);
  }

  /** Both are stages, unstages or commits, of one project. */
  predicate GitOfOneProject(d: Db, x: Id, y: Id)
    requires x in d.files && y in d.files
  {
    && !d.files[x].kind.Save? && !d.files[y].kind.Save?
    && d.files[x].workspace in d.workspaces && d.files[y].workspace in d.workspaces
    && d.workspaces[d.files[x].workspace].project == d.workspaces[d.files[y].workspace].project
  }

  predicate Beside(d: Db, x: Id, y: Id)
    requires x in d.files && y in d.files
  {
    d.files[x].workspace == d.files[y].workspace || GitOfOneProject(d, x, y)
  }

  /** An uncertain settlement that takes effect: its row becomes uncertain, what was queued beside it
      fails, and nothing else changes. */
  lemma UncertainFailsTheQueued(d: Db, x: Id, epoch: nat)
    requires x in d.files && (d.files[x].state.Queued? || d.files[x].state.Dispatching?)
    requires d.files[x].workspace in d.workspaces
    requires var w := d.workspaces[d.files[x].workspace];
             w.writer == FileWriter(x) && epoch != 0 ==> w.epoch == epoch
    ensures var d' := Settle(d, x, Uncertain, epoch);
            && d' == d.(files := d'.files) && d'.files.Keys == d.files.Keys
            && d'.files[x] == d.files[x].(state := Uncertain)
            && forall y :: y in d.files && y != x ==>
                 d'.files[y] == if d.files[y].state.Queued? && Beside(d, x, y) then d.files[y].(state := Failed)
                                else d.files[y]
  {
  }

  /** A queued row beside an operation that is dispatching. */
  predicate WaitsBeside(d: Db, y: Id)
    requires y in d.files
  {
    d.files[y].state.Queued? && exists x :: x in d.files && d.files[x].state.Dispatching? && Beside(d, x, y)
  }

  /** Startup: what was dispatching becomes uncertain, what was queued beside such an operation fails,
      and nothing else changes. */
  lemma StartupFailsTheQueued(d: Db)
    ensures var d' := RecoverStartup(d);
            && d' == d.(files := d'.files) && d'.files.Keys == d.files.Keys
            && forall y :: y in d.files ==>
                 d'.files[y] == if d.files[y].state.Dispatching? then d.files[y].(state := Uncertain)
                                else if WaitsBeside(d, y) then d.files[y].(state := Failed) else d.files[y]
  {
    hide Depends, WaitsBeside, FailDependents;
    var lost := set x | x in d.files && d.files[x].state.Dispatching?;
    var d1 := d.(files := map y | y in d.files :: if y in lost then d.files[y].(state := Uncertain) else d.files[y]);
    FailingThem(d1, lost);
    var d' := RecoverStartup(d);
    assert d' == FailDependents(d1, lost);
    forall y | y in d.files
      ensures d'.files[y] == if d.files[y].state.Dispatching? then d.files[y].(state := Uncertain)
                             else if WaitsBeside(d, y) then d.files[y].(state := Failed) else d.files[y]
    {
      if d.files[y].state.Queued? { LostBeside(d, d1, lost, y); } else { OnlyQueuedWait(d, y); }
    }
  }

  lemma OnlyQueuedWait(d: Db, y: Id)
    requires y in d.files && !d.files[y].state.Queued?
    ensures !WaitsBeside(d, y)
  {
  }

  lemma FailingThem(d: Db, xs: set<Id>)
    ensures var d' := FailDependents(d, xs);
            && d' == d.(files := d'.files) && d'.files.Keys == d.files.Keys
            && forall y :: y in d.files ==>
                 d'.files[y] == if d.files[y].state.Queued? && exists x :: x in xs && x in d.files && Depends(d, x, y)
                                then d.files[y].(state := Failed) else d.files[y]
  {
    hide Depends;
  }

  lemma LostBeside(d: Db, d1: Db, lost: set<Id>, y: Id)
    requires d1.workspaces == d.workspaces && d1.files.Keys == d.files.Keys && y in d.files && d.files[y].state.Queued?
    requires forall x :: x in lost <==> x in d.files && d.files[x].state.Dispatching?
    requires forall x :: x in d.files ==>
               d1.files[x].workspace == d.files[x].workspace && d1.files[x].kind == d.files[x].kind
    ensures (exists x :: x in lost && x in d1.files && Depends(d1, x, y)) <==> WaitsBeside(d, y)
  {
    hide Depends, Beside;
    forall x | x in d.files ensures Depends(d1, x, y) <==> Beside(d, x, y) {
      DependsIsBeside(d, d1, x, y);
    }
  }

  lemma DependsIsBeside(d: Db, d1: Db, x: Id, y: Id)
    requires d1.workspaces == d.workspaces && x in d.files && y in d.files && x in d1.files && y in d1.files
    requires d1.files[x].workspace == d.files[x].workspace && d1.files[x].kind == d.files[x].kind
    requires d1.files[y].workspace == d.files[y].workspace && d1.files[y].kind == d.files[y].kind
    ensures Depends(d1, x, y) <==> Beside(d, x, y)
  {
  }

  /** A row that keeps its reservation may become uncertain. */
  lemma MarkUncertainKeeps(d: Db, d': Db)
    requires FileRules(d) && d' == d.(files := d'.files) && d'.files.Keys == d.files.Keys
    requires forall y :: y in d.files ==>
      d'.files[y] == d.files[y] || (d.files[y].state.Dispatching? && d'.files[y] == d.files[y].(state := Uncertain))
    ensures FileRules(d')
  {
    hide GitAlone;
    assert forall y :: y in d'.files ==> Unresolved(d'.files[y]) == Unresolved(d.files[y]);
    CalmerKeepsGit(d, d');
  }

  /** A queued row holds no slot, a dispatching one its own. */
  lemma SlotOfRow(d: Db, x: Id)
    requires FileRules(d) && x in d.files && (d.files[x].state.Queued? || d.files[x].state.Dispatching?)
    ensures d.files[x].workspace in d.workspaces
    ensures d.workspaces[d.files[x].workspace].writer == FileWriter(x) <==> d.files[x].state.Dispatching?
    ensures !d.files[x].acknowledged && d.files[x].inspection.Uninspected?
    ensures d.files[x].state.Dispatching? ==> d.files[x].epoch == d.workspaces[d.files[x].workspace].epoch
  {
    hide GitAlone;
    assert Unresolved(d.files[x]) || d.files[x].state.Queued?;
  }

  lemma QueuedEnds(d: Db, x: Id, state: FileState)
    requires FileRules(d) && x in d.files && d.files[x].state.Queued? && (state.Succeeded? || state.Failed?)
    ensures FileRules(d.(files := d.files[x := d.files[x].(state := state)]))
  {
    hide GitAlone;
    var d' := d.(files := d.files[x := d.files[x].(state := state)]);
    assert forall y :: y in d'.files ==> Unresolved(d'.files[y]) == Unresolved(d.files[y]);
    CalmerKeepsGit(d, d');
  }

  /** The slot is given up with the row that held it. */
  ghost predicate GivesUp(d: Db, d': Db, x: Id)
    requires x in d.files
  {
    var w := d.files[x].workspace;
    && d'.files.Keys == d.files.Keys && d'.workspaces.Keys == d.workspaces.Keys
    && d'.readers == d.readers && d'.previews == d.previews
    && (forall y :: y in d.files && y != x ==> d'.files[y] == d.files[y])
    && (forall v :: v in d.workspaces && v != w ==> d'.workspaces[v] == d.workspaces[v])
    && w in d.workspaces && d.workspaces[w].writer == FileWriter(x)
    && d'.workspaces[w] == d.workspaces[w].(writer := Nobody)
    && d'.files[x].workspace == w && d'.files[x].kind == d.files[x].kind
    && !Unresolved(d'.files[x]) && !d'.files[x].state.Dispatching?
    && (d'.files[x].acknowledged ==> d'.files[x].state.Uncertain?)
    && (!d'.files[x].inspection.Uninspected? ==> d'.files[x].state.Uncertain?)
  }

  lemma GivingUpKeeps(d: Db, d': Db, x: Id)
    requires FileRules(d) && x in d.files && GivesUp(d, d', x)
    ensures FileRules(d')
  {
    hide GitAlone, RowsCoherent;
    GivingUpKeepsGit(d, d', x);
    GivingUpKeepsCoherent(d, d', x);
  }

  lemma GivingUpKeepsCoherent(d: Db, d': Db, x: Id)
    requires FileRules(d) && x in d.files && GivesUp(d, d', x)
    ensures Linked(d') && RowsCoherent(d')
  {
    hide GitAlone, ReservationExact;
  }

  lemma GivingUpKeepsGit(d: Db, d': Db, x: Id)
    requires FileRules(d) && x in d.files && GivesUp(d, d', x)
    ensures Linked(d') && GitAlone(d')
  {
    hide GitAlone, RowsCoherent, ReservationExact;
    CalmerKeepsGit(d, d');
  }

  /** Settling clears the slot in the transaction that ends the row. */
  lemma EndKeeps(d: Db, x: Id, state: FileState)
    requires FileRules(d) && x in d.files && (d.files[x].state.Queued? || d.files[x].state.Dispatching?)
    requires state.Succeeded? || state.Failed?
    ensures d.files[x].workspace in d.workspaces
    ensures var d1 := d.(files := d.files[x := d.files[x].(state := state)]);
            var w := d.files[x].workspace;
            FileRules(if d.workspaces[w].writer == FileWriter(x) then SetWriter(d1, w, Nobody) else d1)
  {
    hide FileRules;
    SlotOfRow(d, x);
    var d1 := d.(files := d.files[x := d.files[x].(state := state)]);
    if d.files[x].state.Queued? { QueuedEnds(d, x, state); }
    else { GivingUpKeeps(d, SetWriter(d1, d.files[x].workspace, Nobody), x); }
  }

  lemma SettleKeeps(d: Db, x: Id, state: FileState, epoch: nat)
    requires FileRules(d) && x in d.files && Settles(state)
    requires state.Uncertain? ==> !d.files[x].state.Queued?
    ensures FileRules(Settle(d, x, state, epoch))
  {
    if d.files[x].state.Queued? || d.files[x].state.Dispatching? {
      if state.Uncertain? {
        var d1 := d.(files := d.files[x := d.files[x].(state := state)]);
        MarkUncertainKeeps(d, d1);
        FailDependentsKeeps(d1, {x});
      } else {
        EndKeeps(d, x, state);
      }
    }
  }

  lemma RecoverStartupKeeps(d: Db)
    requires FileRules(d)
    ensures FileRules(RecoverStartup(d))
  {
    var lost := set x | x in d.files && d.files[x].state.Dispatching?;
    var d1 := d.(files := map y | y in d.files :: if y in lost then d.files[y].(state := Uncertain) else d.files[y]);
    MarkUncertainKeeps(d, d1);
    FailDependentsKeeps(d1, lost);
  }

  /** An inspection note on an uncertain row concerns no reservation. */
  lemma NoteKeeps(d: Db, x: Id, inspection: Inspection)
    requires FileRules(d) && x in d.files && d.files[x].state.Uncertain?
    ensures FileRules(d.(files := d.files[x := d.files[x].(inspection := inspection)]))
  {
    hide GitAlone;
    var d' := d.(files := d.files[x := d.files[x].(inspection := inspection)]);
    assert forall y :: y in d'.files ==> Unresolved(d'.files[y]) == Unresolved(d.files[y]);
    CalmerKeepsGit(d, d');
  }

  /** A new epoch under the same owner. */
  lemma FenceKeeps(d: Db, w: Id, epoch: nat)
    requires FileRules(d) && w in d.workspaces
    requires forall y :: y in d.files && d.files[y].workspace == w ==> !d.files[y].state.Dispatching?
    ensures FileRules(d.(next := epoch, workspaces := d.workspaces[w := d.workspaces[w].(epoch := epoch)]))
  {
    hide GitAlone;
    CalmerKeepsGit(d, d.(next := epoch, workspaces := d.workspaces[w := d.workspaces[w].(epoch := epoch)]));
  }

  lemma InspectionNotesKeep(d: Db, x: Id, epoch: nat)
    requires FileRules(d)
    ensures FileRules(RequestInspection(d, x, epoch)) && FileRules(FailInspection(d, x))
  {
    if x in d.files && d.files[x].state.Uncertain? {
      NoteKeeps(d, x, RequestInspection(d, x, epoch).files[x].inspection);
      NoteKeeps(d, x, FailInspection(d, x).files[x].inspection);
    }
  }

  lemma OnlyHolderDispatches(d: Db, x: Id, y: Id)
    requires FileRules(d) && x in d.files && d.workspaces[d.files[x].workspace].writer == FileWriter(x)
    requires y in d.files && d.files[y].workspace == d.files[x].workspace && d.files[y].state.Dispatching?
    ensures y == x
  {
    assert Unresolved(d.files[y]);
  }

  lemma InspectedIsUncertain(d: Db, x: Id)
    requires FileRules(d) && CanInspect(d, x)
    ensures x in d.files && d.files[x].workspace in d.workspaces && d.files[x].state.Uncertain?
    ensures d.workspaces[d.files[x].workspace].writer == FileWriter(x)
  {
    hide GitAlone, ReservationExact;
  }

  lemma FinishInspectionKeeps(d: Db, x: Id)
    requires FileRules(d) && CanInspect(d, x)
    ensures FileRules(FinishInspection(d, x))
  {
    hide FileRules, CanInspect;
    InspectedIsUncertain(d, x);
    var w := d.files[x].workspace;
    forall y | y in d.files && d.files[y].workspace == w ensures !d.files[y].state.Dispatching? {
      if d.files[y].state.Dispatching? { OnlyHolderDispatches(d, x, y); }
    }
    var d1 := d.(next := d.next + 1, workspaces := d.workspaces[w := d.workspaces[w].(epoch := d.next + 1)]);
    FenceKeeps(d, w, d.next + 1);
    NoteKeeps(d1, x, Ready(d.next + 1));
  }

  lemma ReleaseGivesUp(d: Db, x: Id, epoch: nat)
    requires FileRules(d) && ReleaseFile(d, x, epoch) != d
    ensures x in d.files && GivesUp(d, ReleaseFile(d, x, epoch), x)
  {
    hide GitAlone;
  }

  lemma ReleaseFileKeeps(d: Db, x: Id, epoch: nat)
    requires FileRules(d)
    ensures FileRules(ReleaseFile(d, x, epoch))
  {
    hide FileRules, ReleaseFile;
    if ReleaseFile(d, x, epoch) != d {
      ReleaseGivesUp(d, x, epoch);
      GivingUpKeeps(d, ReleaseFile(d, x, epoch), x);
    }
  }

  // ----- file rules over the other transactions ------------------------------------------------

  /** Any change of one slot from nobody, a conversation or a preview to another of those. */
  lemma OtherWriterKeeps(d: Db, w: Id, writer: Writer)
    requires FileRules(d) && w in d.workspaces
    requires !d.workspaces[w].writer.FileWriter? && !writer.FileWriter?
    requires writer.Nobody? || !d.workspaces[w].writer.Nobody? || !GitPending(d, d.workspaces[w].project)
    ensures FileRules(SetWriter(d, w, writer))
  {
    hide GitAlone, RowsCoherent, GitPending;
    OtherWriterKeepsGit(d, w, writer);
    OtherWriterKeepsEpochs(d, w, writer);
  }

  lemma OtherWriterKeepsEpochs(d: Db, w: Id, writer: Writer)
    requires FileRules(d) && w in d.workspaces && !d.workspaces[w].writer.FileWriter? && !writer.FileWriter?
    ensures Linked(SetWriter(d, w, writer)) && RowsCoherent(SetWriter(d, w, writer))
  {
    hide GitAlone;
    forall x | x in d.files && d.files[x].state.Dispatching? ensures d.files[x].workspace != w {
      assert Unresolved(d.files[x]);
    }
  }

  lemma OtherWriterKeepsGit(d: Db, w: Id, writer: Writer)
    requires FileRules(d) && w in d.workspaces
    requires writer.Nobody? || !d.workspaces[w].writer.Nobody? || !GitPending(d, d.workspaces[w].project)
    ensures Linked(SetWriter(d, w, writer)) && GitAlone(SetWriter(d, w, writer))
  {
    hide RowsCoherent, ReservationExact;
    var d' := SetWriter(d, w, writer);
    forall x | x in d'.files && IsGit(d'.files[x]) && Unresolved(d'.files[x])
      ensures OthersIdle(d', d'.files[x].workspace, d'.workspaces[d'.files[x].workspace].project)
    {
      assert OthersIdle(d, d.files[x].workspace, d.workspaces[d.files[x].workspace].project);
      if d.workspaces[w].project == d.workspaces[d.files[x].workspace].project {
        assert GitPending(d, d.workspaces[w].project);
      }
    }
  }

  /** Preview rows carry no file rule; a reader that appears needs a project without pending Git. */
  lemma PreviewRowsKeep(d: Db, d': Db)
    requires FileRules(d) && d' == d.(next := d'.next, previews := d'.previews, readers := d'.readers)
    requires forall p :: p in d'.previews ==> d'.previews[p].workspace in d.workspaces
    requires forall r :: r in d'.readers ==>
      || (r in d.readers && d'.readers[r] == d.readers[r])
      || (d'.readers[r].workspace in d.workspaces && !GitPending(d, d.workspaces[d'.readers[r].workspace].project))
    ensures FileRules(d')
  {
    forall x | x in d'.files && IsGit(d'.files[x]) && Unresolved(d'.files[x])
      ensures NoReaders(d', d'.workspaces[d'.files[x].workspace].project)
    {
      assert GitPending(d, d.workspaces[d.files[x].workspace].project);
      assert NoReaders(d, d.workspaces[d.files[x].workspace].project);
    }
  }

  lemma ClaimPreviewKeepsFiles(d: Db, p: Id, seen: Preview)
    requires FileRules(d)
    ensures FileRules(ClaimPreview(d, p, seen))
  {
    if CanClaimPreview(d, p, seen) {
      var w := d.previews[p].workspace;
      if seen.writes {
        OtherWriterKeeps(d, w, PreviewWriter(p));
        PreviewRowsKeep(SetWriter(d, w, PreviewWriter(p)), ClaimPreview(d, p, seen));
      } else {
        PreviewRowsKeep(d, ClaimPreview(d, p, seen));
      }
    }
  }

  lemma SettleRetirementKeepsFiles(d: Db, p: Id, generation: nat, state: PreviewState)
    requires FileRules(d) && Outcome(state)
    ensures FileRules(SettleRetirement(d, p, generation, state))
  {
    var d' := SettleRetirement(d, p, generation, state);
    if d' != d {
      var d1 := if d.previews[p].lease != 0 then DropLease(d, p) else d;
      if d.previews[p].lease != 0 {
        if d.previews[p].writes { OtherWriterKeeps(d, d.previews[p].workspace, Nobody); }
        else { PreviewRowsKeep(d, d1); }
      }
      PreviewRowsKeep(d1, d');
    }
  }

  predicate OnlyRow(tx: Tx) {
    || tx.PatchPreviewTx? || tx.StartPreviewTx? || tx.StopPreviewTx? || tx.MarkReadyTx? || tx.ForceStopTx?
    || tx.DoubtRetirementTx? || tx.FailWaitingTx? || tx.CreatePreviewTx? || tx.DeletePreviewTx? || tx.StopAllPreviewsTx?
  }

  /** Transactions on preview rows alone: slots and readers stay, no row comes to life and none moves. */
  lemma RowTxShape(d: Db, tx: Tx)
    requires OnlyRow(tx)
    ensures ApplyPreview(d, tx) == d.(next := ApplyPreview(d, tx).next, previews := ApplyPreview(d, tx).previews)
    ensures forall p :: p in ApplyPreview(d, tx).previews && !ApplyPreview(d, tx).previews[p].retired ==>
              p in d.previews && !d.previews[p].retired
              && ApplyPreview(d, tx).previews[p].workspace == d.previews[p].workspace
    ensures forall p :: p in ApplyPreview(d, tx).previews ==>
              if p in d.previews then ApplyPreview(d, tx).previews[p].workspace == d.previews[p].workspace
              else ApplyPreview(d, tx).previews[p].workspace in d.workspaces
  {
    hide ApplyPreview;
    if tx.MarkReadyTx? || tx.ForceStopTx? || tx.DoubtRetirementTx? || tx.FailWaitingTx? || tx.StopPreviewTx? {
      StateTxShape(d, tx);
    } else if tx.StopAllPreviewsTx? {
      StopAllTxShape(d, tx);
    } else {
      RecordTxShape(d, tx);
    }
  }

  lemma StateTxShape(d: Db, tx: Tx)
    requires tx.MarkReadyTx? || tx.ForceStopTx? || tx.DoubtRetirementTx? || tx.FailWaitingTx? || tx.StopPreviewTx?
    ensures ApplyPreview(d, tx) == d.(next := ApplyPreview(d, tx).next, previews := ApplyPreview(d, tx).previews)
    ensures forall p :: p in ApplyPreview(d, tx).previews && !ApplyPreview(d, tx).previews[p].retired ==>
              p in d.previews && !d.previews[p].retired
              && ApplyPreview(d, tx).previews[p].workspace == d.previews[p].workspace
    ensures forall p :: p in ApplyPreview(d, tx).previews ==>
              if p in d.previews then ApplyPreview(d, tx).previews[p].workspace == d.previews[p].workspace
              else ApplyPreview(d, tx).previews[p].workspace in d.workspaces
  {
    hide Usable;
  }

  lemma RecordTxShape(d: Db, tx: Tx)
    requires tx.PatchPreviewTx? || tx.StartPreviewTx? || tx.CreatePreviewTx? || tx.DeletePreviewTx?
    ensures ApplyPreview(d, tx) == d.(next := ApplyPreview(d, tx).next, previews := ApplyPreview(d, tx).previews)
    ensures forall p :: p in ApplyPreview(d, tx).previews && !ApplyPreview(d, tx).previews[p].retired ==>
              p in d.previews && !d.previews[p].retired
              && ApplyPreview(d, tx).previews[p].workspace == d.previews[p].workspace
    ensures forall p :: p in ApplyPreview(d, tx).previews ==>
              if p in d.previews then ApplyPreview(d, tx).previews[p].workspace == d.previews[p].workspace
              else ApplyPreview(d, tx).previews[p].workspace in d.workspaces
  {
    hide LeaseHeld;
  }

  lemma StopAllTxShape(d: Db, tx: Tx)
    requires tx.StopAllPreviewsTx?
    ensures ApplyPreview(d, tx) == d.(next := ApplyPreview(d, tx).next, previews := ApplyPreview(d, tx).previews)
    ensures forall p :: p in ApplyPreview(d, tx).previews && !ApplyPreview(d, tx).previews[p].retired ==>
              p in d.previews && !d.previews[p].retired
              && ApplyPreview(d, tx).previews[p].workspace == d.previews[p].workspace
    ensures forall p :: p in ApplyPreview(d, tx).previews ==>
              if p in d.previews then ApplyPreview(d, tx).previews[p].workspace == d.previews[p].workspace
              else ApplyPreview(d, tx).previews[p].workspace in d.workspaces
  {
    hide LeaseHeld, Usable;
  }

  /** And a row that lives stays as it is, except for its state. */
  lemma LiveRowsStay(d: Db, tx: Tx, p: Id)
    requires OnlyRow(tx) && p in d.previews && !d.previews[p].retired
    ensures p in ApplyPreview(d, tx).previews
    ensures ApplyPreview(d, tx).previews[p] == d.previews[p].(state := ApplyPreview(d, tx).previews[p].state)
  {
    hide LeaseHeld, Usable;
  }

  lemma PreviewTxKeepsFiles(d: Db, tx: Tx)
    requires FileRules(d) && IsPreviewTx(tx)
    ensures FileRules(ApplyPreview(d, tx))
  {
    if tx.ClaimPreviewTx? { ClaimPreviewKeepsFiles(d, tx.p, tx.seen); }
    else if tx.SettleRetirementTx? {
      if Outcome(tx.outcome) { SettleRetirementKeepsFiles(d, tx.p, tx.generation, tx.outcome); }
    }
    else if tx.RecoverPreviewTx? { SettleRetirementKeepsFiles(d, tx.p, tx.generation, Stopped); }
    else { RowTxKeepsFiles(d, tx); }
  }

  lemma RowTxKeepsFiles(d: Db, tx: Tx)
    requires FileRules(d) && OnlyRow(tx)
    ensures FileRules(ApplyPreview(d, tx))
  {
    hide ApplyPreview;
    RowTxShape(d, tx);
    PreviewRowsKeep(d, ApplyPreview(d, tx));
  }

  lemma OtherTxKeepsFiles(d: Db, tx: Tx)
    requires FileRules(d) && !IsFileTx(tx) && !IsPreviewTx(tx)
    ensures FileRules(Apply(d, tx))
  {
    if tx.AddWorkspace? || tx.SetReady? || tx.Environment? {
      hide FileRules, Apply;
      PlacesKeepFiles(d, tx);
    } else {
      hide FileRules, Apply;
      ConversationsKeepFiles(d, tx);
    }
  }

  lemma PlacesKeepFiles(d: Db, tx: Tx)
    requires FileRules(d) && (tx.AddWorkspace? || tx.SetReady? || tx.Environment?)
    ensures FileRules(Apply(d, tx))
  {
    hide SetWriter, FileRules;
    if tx.AddWorkspace? { NewWorkspaceKeeps(d, Apply(d, tx), tx.w); }
    else { SameSlotsKeep(d, Apply(d, tx)); }
  }

  /** Archiving, storage, turns and readiness concern no reservation. */
  lemma SameSlotsKeep(d: Db, d': Db)
    requires FileRules(d) && d'.files == d.files && d'.previews == d.previews && d'.readers == d.readers
    requires d'.workspaces.Keys == d.workspaces.Keys
    requires forall w :: w in d.workspaces ==> d'.workspaces[w] == d.workspaces[w].(ready := d'.workspaces[w].ready)
    ensures FileRules(d')
  {
    hide GitAlone;
    CalmerKeepsGit(d, d') by { hide ReservationExact, RowsCoherent; }
  }

  lemma NewWorkspaceKeeps(d: Db, d': Db, w: Id)
    requires FileRules(d) && d' == d.(workspaces := d'.workspaces)
    requires d'.workspaces.Keys == d.workspaces.Keys + {w}
    requires forall v :: v in d.workspaces ==> d'.workspaces[v] == d.workspaces[v]
    requires w !in d.workspaces ==> d'.workspaces[w].writer.Nobody?
    ensures FileRules(d')
  {
  }

  lemma ConversationsKeepFiles(d: Db, tx: Tx)
    requires FileRules(d) && (tx.ClaimConversationTx? || tx.RegenerateTx? || tx.ReleaseConversationTx?)
    ensures FileRules(Apply(d, tx))
  {
    hide FileRules, SetWriter, GitPending;
    if tx.ClaimConversationTx? {
      if CanClaimConversation(d, tx.w) { OtherWriterKeeps(d, tx.w, Conversation(tx.session, tx.generation)); }
    } else if tx.RegenerateTx? {
      if Apply(d, tx) != d { OtherWriterKeeps(d, tx.w, Conversation(tx.session, tx.generation)); }
    } else {
      if Apply(d, tx) != d { OtherWriterKeeps(d, tx.w, Nobody); }
    }
  }

  lemma FileTxKeepsFiles(d: Db, tx: Tx)
    requires FileRules(d) && IsFileTx(tx) && CallerKeeps(d, tx)
    ensures FileRules(ApplyFile(d, tx))
  {
    if tx.AcceptTx? { AcceptKeeps(d, tx.x, tx.w, tx.kind); }
    else if tx.ClaimFileTx? { if CanClaimFile(d, tx.x) { ClaimFileKeeps(d, tx.x); } }
    else if tx.SettleTx? { if tx.x in d.files && Settles(tx.state) { SettleKeeps(d, tx.x, tx.state, tx.epoch); } }
    else if tx.RecoverStartupTx? { RecoverStartupKeeps(d); }
    else if tx.RequestInspectionTx? { InspectionNotesKeep(d, tx.x, tx.epoch); }
    else if tx.FinishInspectionTx? { if CanInspect(d, tx.x) { FinishInspectionKeeps(d, tx.x); } }
    else if tx.FailInspectionTx? { InspectionNotesKeep(d, tx.x, 0); }
    else { ReleaseFileKeeps(d, tx.x, tx.epoch); }
  }

  /** Every transaction of every kind keeps the file rules, if its caller does. */
  lemma EveryTxKeepsFiles(d: Db, tx: Tx)
    requires FileRules(d) && CallerKeeps(d, tx)
    ensures FileRules(Apply(d, tx))
  {
    if IsFileTx(tx) { FileTxKeepsFiles(d, tx); }
    else if IsPreviewTx(tx) { PreviewTxKeepsFiles(d, tx); }
    else { OtherTxKeepsFiles(d, tx); }
  }
}
