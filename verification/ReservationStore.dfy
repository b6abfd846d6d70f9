/** The transactions of Reservations as their callers write them: one check and one statement after
    the other on the tables, each transaction alone. A refusal or an error leaves the tables as they
    were, and every transaction keeps the rules of reservations and previews. */
module ReservationStore {
  import opened Reservations
  import opened ReservationRules
  import opened PreviewLeases

  /** One pass of `failDependentFiles` after another comes to the same as one pass for them all. */
  lemma DependentsOneByOne(d: Db, xs: set<Id>, x: Id)
    requires xs + {x} <= d.files.Keys
    requires forall y :: y in xs + {x} ==> !d.files[y].state.Queued?
    ensures FailDependents(FailDependents(d, xs), {x}) == FailDependents(d, xs + {x})
  {
    hide FailDependents;
    var d1 := FailDependents(d, xs);
    KeepsRows(d, xs);
    KeepsRows(d1, {x});
    KeepsRows(d, xs + {x});
    forall y | y in d.files
      ensures FailDependents(d1, {x}).files[y] == FailDependents(d, xs + {x}).files[y]
    {
      OneDependent(d, xs, x, y);
    }
    assert FailDependents(d1, {x}).files == FailDependents(d, xs + {x}).files;
  }

  lemma OneDependent(d: Db, xs: set<Id>, x: Id, y: Id)
    requires xs + {x} <= d.files.Keys && y in d.files
    requires forall z :: z in xs + {x} ==> !d.files[z].state.Queued?
    ensures y in FailDependents(FailDependents(d, xs), {x}).files && y in FailDependents(d, xs + {x}).files
    ensures FailDependents(FailDependents(d, xs), {x}).files[y] == FailDependents(d, xs + {x}).files[y]
  {
    var d1 := FailDependents(d, xs);
    assert d1.files[x] == d.files[x];
    assert Depends(d1, x, y) == Depends(d, x, y);
  }

  lemma NoDependents(d: Db)
    ensures FailDependents(d, {}) == d
  {
    assert FailDependents(d, {}).files == d.files;
  }

  lemma KeepsRows(d: Db, xs: set<Id>)
    ensures FailDependents(d, xs) == d.(files := FailDependents(d, xs).files)
    ensures FailDependents(d, xs).files.Keys == d.files.Keys
  {
  }

  /** Only the row of X and the slot of its workspace may differ. */
  ghost predicate OnlyFile(d: Db, d': Db, x: Id)
    requires x in d.files
  {
    && d'.files.Keys == d.files.Keys && d'.workspaces.Keys == d.workspaces.Keys
    && (forall y :: y in d.files && y != x ==> d'.files[y] == d.files[y])
    && (forall w :: w in d.workspaces && w != d.files[x].workspace ==> d'.workspaces[w] == d.workspaces[w])
    && d'.previews == d.previews && d'.readers == d.readers
  }

  /** Only the slot of one workspace may differ. */
  ghost predicate OnlySlot(d: Db, d': Db, w: Id) {
    && d'.files == d.files && d'.previews == d.previews && d'.readers == d.readers
    && d'.workspaces.Keys == d.workspaces.Keys
    && forall v :: v in d.workspaces && v != w ==> d'.workspaces[v] == d.workspaces[v]
  }

  /** What an admitted claim of a queued row means. */
  lemma FileClaimed(d: Db, x: Id)
    requires Rules(d) && CanClaimFile(d, x) && d.files[x].state.Queued?
    ensures var d', w := ClaimFile(d, x), d.files[x].workspace;
            && Rules(d') && OnlyFile(d, d', x) && d'.files[x].state.Dispatching?
            && d'.workspaces[w].writer == FileWriter(x) && d'.files[x].epoch == d'.workspaces[w].epoch
            && (forall v :: v in d.workspaces ==> d.workspaces[v].epoch < d'.files[x].epoch)
            && (IsGit(d'.files[x]) ==> HasProjectAlone(d', x))
  {
    Keeps(d, ClaimFileTx(x));
    assert Apply(d, ClaimFileTx(x)) == ClaimFile(d, x);
    FileClaimShape(d, x);
    hide ClaimFile, CanClaimFile, Apply, FileRules, Placed;
    if IsGit(ClaimFile(d, x).files[x]) { ClaimedAlone(ClaimFile(d, x), x); }
  }

  lemma FileClaimShape(d: Db, x: Id)
    requires CanClaimFile(d, x) && d.files[x].state.Queued? && PreviewRules(d)
    ensures var d', w := ClaimFile(d, x), d.files[x].workspace;
            && OnlyFile(d, d', x) && d'.files[x].state.Dispatching?
            && d'.workspaces[w].writer == FileWriter(x) && d'.files[x].epoch == d'.workspaces[w].epoch
            && (forall v :: v in d.workspaces ==> d.workspaces[v].epoch < d'.files[x].epoch)
  {
    hide GitPending, LivePreviews;
  }

  /** What a granted release means. */
  lemma FileReleased(d: Db, x: Id, expected: nat)
    requires Rules(d) && OwnsEpoch(d, x, expected) && d.files[x].inspection == Ready(expected)
    ensures var d', w := ReleaseFile(d, x, expected), d.files[x].workspace;
            && Rules(d') && OnlyFile(d, d', x) && d'.files[x].workspace == w && d'.workspaces[w].writer.Nobody?
            && !Unresolved(d'.files[x]) && d'.files[x].inspection.Consumed? && d'.files[x].state == d.files[x].state
            && d'.workspaces[w].epoch == expected
  {
    hide ReleaseFile, Apply, Rules, Unresolved, OwnsEpoch;
    ReleaseIsTx(d, x, expected);
    Keeps(d, ReleaseFileTx(x, expected));
    FileReleaseShape(d, x, expected);
  }

  lemma ReleaseIsTx(d: Db, x: Id, expected: nat)
    ensures Apply(d, ReleaseFileTx(x, expected)) == ReleaseFile(d, x, expected)
    ensures CallerKeeps(d, ReleaseFileTx(x, expected))
  {
    hide ReleaseFile;
  }

  lemma FileReleaseShape(d: Db, x: Id, expected: nat)
    requires Rules(d) && OwnsEpoch(d, x, expected) && d.files[x].inspection == Ready(expected)
    ensures var d', w := ReleaseFile(d, x, expected), d.files[x].workspace;
            && OnlyFile(d, d', x) && d'.files[x].workspace == w && d'.workspaces[w].writer.Nobody?
            && !Unresolved(d'.files[x]) && d'.files[x].inspection.Consumed? && d'.files[x].state == d.files[x].state
            && d'.workspaces[w].epoch == expected
  {
    hide PreviewRules, Placed;
  }

  /** What an admitted claim of a conversation means. */
  lemma ConversationClaimed(d: Db, w: Id, session: Id, generation: nat)
    requires Rules(d) && CanClaimConversation(d, w)
    ensures var d' := ClaimConversation(d, w, session, generation);
            && Rules(d') && OnlySlot(d, d', w) && w in d'.workspaces
            && d'.workspaces[w].writer == Conversation(session, generation)
            && (forall v :: v in d.workspaces ==> d.workspaces[v].epoch < d'.workspaces[w].epoch)
            && d'.workspaces[w].project == d.workspaces[w].project && !GitPending(d', d'.workspaces[w].project)
            && d'.workspaces[w].project !in d'.storage
  {
    hide ClaimConversation, Apply, Rules, GitPending;
    ConversationIsTx(d, w, session, generation);
    Keeps(d, ClaimConversationTx(w, session, generation));
    ConversationShape(d, w, session, generation);
    SameProjects(d, ClaimConversation(d, w, session, generation), d.workspaces[w].project);
  }

  lemma ConversationIsTx(d: Db, w: Id, session: Id, generation: nat)
    ensures Apply(d, ClaimConversationTx(w, session, generation)) == ClaimConversation(d, w, session, generation)
    ensures CallerKeeps(d, ClaimConversationTx(w, session, generation))
  {
    hide ClaimConversation;
  }

  lemma ConversationShape(d: Db, w: Id, session: Id, generation: nat)
    requires Rules(d) && CanClaimConversation(d, w)
    ensures var d' := ClaimConversation(d, w, session, generation);
            && OnlySlot(d, d', w) && w in d.workspaces && w in d'.workspaces
            && d'.workspaces[w].writer == Conversation(session, generation)
            && (forall v :: v in d.workspaces ==> d.workspaces[v].epoch < d'.workspaces[w].epoch)
            && (forall v :: v in d.workspaces ==> d'.workspaces[v].project == d.workspaces[v].project)
            && !GitPending(d, d.workspaces[w].project)
            && d'.storage == d.storage && d.workspaces[w].project !in d.storage
  {
    hide Placed, GitPending;
  }

  /** What an admitted start means. */
  lemma PreviewStarted(d: Db, p: Id)
    requires Rules(d) && CanStart(d, p)
    ensures var d' := StartPreview(d, p);
            && Rules(d') && OnlyPreview(d, d', p)
            && d'.previews[p] == d.previews[p].(state := Waiting, generation := d'.previews[p].generation)
            && (forall q :: q in d.previews ==> d.previews[q].generation < d'.previews[p].generation)
            && (forall w :: w in d'.workspaces ==> d'.workspaces[w].epoch < d'.previews[p].generation)
            && (forall q :: q in d'.previews && q != p && d'.previews[q].state.Waiting? ==>
                  d'.previews[q].workspace != d'.previews[p].workspace)
  {
    hide StartPreview, Apply, Rules, CanStart;
    StartIsTx(d, p);
    Keeps(d, StartPreviewTx(p));
    StartShape(d, p);
  }

  lemma StartIsTx(d: Db, p: Id)
    ensures Apply(d, StartPreviewTx(p)) == StartPreview(d, p) && CallerKeeps(d, StartPreviewTx(p))
  {
    hide StartPreview;
  }

  lemma StartShape(d: Db, p: Id)
    requires Rules(d) && CanStart(d, p)
    ensures var d' := StartPreview(d, p);
            && OnlyPreview(d, d', p)
            && d'.previews[p] == d.previews[p].(state := Waiting, generation := d'.previews[p].generation)
            && (forall q :: q in d.previews ==> d.previews[q].generation < d'.previews[p].generation)
            && (forall w :: w in d'.workspaces ==> d'.workspaces[w].epoch < d'.previews[p].generation)
            && (forall q :: q in d'.previews && q != p && d'.previews[q].state.Waiting? ==>
                  d'.previews[q].workspace != d'.previews[p].workspace)
  {
  }

  /** What a stop means. */
  lemma PreviewStopped(d: Db, p: Id, expected: nat)
    requires Rules(d) && p in d.previews
    ensures var d' := StopPreview(d, p, expected);
            && Rules(d') && OnlyPreview(d, d', p)
            && d'.previews[p] == d.previews[p].(state := d'.previews[p].state)
            && (expected == d.previews[p].generation ==>
                  if d'.previews[p].retired then d'.previews[p].state.Stopped?
                  else d'.previews[p].state.Stopping? && d'.previews[p].lease != 0)
            && (expected != d.previews[p].generation ==> d' == d)
            && (LeaseHeld(d', p) <==> LeaseHeld(d, p))
  {
    hide StopPreview, Apply, Rules, LeaseHeld;
    StopIsTx(d, p, expected);
    Keeps(d, StopPreviewTx(p, expected));
    StopShape(d, p, expected);
  }

  lemma StopIsTx(d: Db, p: Id, expected: nat)
    ensures Apply(d, StopPreviewTx(p, expected)) == StopPreview(d, p, expected)
    ensures CallerKeeps(d, StopPreviewTx(p, expected))
  {
    hide StopPreview;
  }

  lemma StopShape(d: Db, p: Id, expected: nat)
    requires Rules(d) && p in d.previews
    ensures var d' := StopPreview(d, p, expected);
            && OnlyPreview(d, d', p)
            && d'.previews[p] == d.previews[p].(state := d'.previews[p].state)
            && (expected == d.previews[p].generation ==>
                  if d'.previews[p].retired then d'.previews[p].state.Stopped?
                  else d'.previews[p].state.Stopping? && d'.previews[p].lease != 0)
            && (expected != d.previews[p].generation ==> d' == d)
            && (LeaseHeld(d', p) <==> LeaseHeld(d, p))
  {
    hide FileRules, Placed;
  }

  /** What an admitted claim of a preview means. */
  lemma PreviewClaimed(d: Db, p: Id, seen: Preview)
    requires Rules(d) && CanClaimPreview(d, p, seen)
    ensures var d' := ClaimPreview(d, p, seen);
            && Rules(d') && p in d'.previews && d'.previews[p].workspace in d'.workspaces && d'.files == d.files
            && PlacedAt(d', p, d'.previews[p].workspace) && d'.previews[p].lease == d'.next > d.next
            && !GitPending(d', d'.workspaces[d'.previews[p].workspace].project)
            && (LeaseRules(d) ==> (LeaseHeld(d', p) <==> ClaimIsCurrent(d, p, seen)))
            && (LeaseRules(d) && ClaimIsCurrent(d, p, seen) ==> LeaseRules(d'))
  {
    hide ClaimPreview, Apply, GitPending, ReservationExact, RowsCoherent, GitAlone, PreviewRules, LeaseRules, Placed;
    hide LeaseHeld, ClaimIsCurrent, CanClaimPreview;
    var d' := ClaimPreview(d, p, seen);
    PreviewClaimIsTx(d, p, seen);
    EveryTxKeepsRules(d, ClaimPreviewTx(p, seen));
    if LeaseRules(d) { ClaimLeaseExact(d, p, seen); }
    ClaimShape(d, p, seen);
    SameProjects(d, d', d.workspaces[d.previews[p].workspace].project);
  }

  lemma PreviewClaimIsTx(d: Db, p: Id, seen: Preview)
    requires CanClaimPreview(d, p, seen)
    ensures p in d.previews
    ensures var d', w := ClaimPreview(d, p, seen), d.previews[p].workspace;
            && Apply(d, ClaimPreviewTx(p, seen)) == d' && d'.files == d.files && d'.next > d.next
            && p in d'.previews && d'.previews[p].workspace == w && d'.workspaces.Keys == d.workspaces.Keys
            && (forall v :: v in d.workspaces ==> d'.workspaces[v].project == d.workspaces[v].project)
            && w in d.workspaces && !GitPending(d, d.workspaces[w].project) && CallerKeeps(d, ClaimPreviewTx(p, seen))
  {
    hide GitPending, LivePreviews;
  }

  /** Only the row of one preview may differ. */
  ghost predicate OnlyPreview(d: Db, d': Db, p: Id) {
    && d'.files == d.files && d'.workspaces == d.workspaces && d'.readers == d.readers
    && d'.previews.Keys == d.previews.Keys
    && forall q :: q in d.previews && q != p ==> d'.previews[q] == d.previews[q]
  }

  ghost predicate Rules(d: Db) {
    FileRules(d) && PreviewRules(d) && Placed(d)
  }

  lemma Keeps(d: Db, tx: Tx)
    requires Rules(d) && CallerKeeps(d, tx)
    ensures Rules(Apply(d, tx))
    ensures LeaseRules(d) && !tx.ClaimPreviewTx? ==> LeaseRules(Apply(d, tx))
  {
    EveryTxKeepsRules(d, tx);
  }

  /** A Git operation that has just been admitted has its project to itself. */
  lemma ClaimedAlone(d: Db, x: Id)
    requires FileRules(d) && x in d.files && IsGit(d.files[x]) && Unresolved(d.files[x])
    ensures HasProjectAlone(d, x)
  {
    var project := d.workspaces[d.files[x].workspace].project;
    assert OthersIdle(d, d.files[x].workspace, project) && NoReaders(d, project);
  }

  class Database {
    var next: nat
    var archived: set<Id>
    var storage: set<Id>
    var busy: set<Id>
    var workspaces: map<Id, Workspace>
    var files: map<Id, File>
    var previews: map<Id, Preview>
    var readers: map<Id, Reader>

    function Rows(): (d: Db)
      reads this
    {
      Db(next, archived, storage, busy, workspaces, files, previews, readers)
    }

    /** Reservations name the unresolved operations, a pending Git operation is alone in its project, and
        previews have at most four live rows, one a workspace, each with its place. */
    ghost predicate Valid()
      reads this
    {
      Rules(Rows())
    }

    constructor ()
      ensures Rows() == EMPTY && Valid() && LeaseRules(Rows())
    {
      next, archived, storage, busy := 0, {}, {}, {};
      workspaces, files, previews, readers := map[], map[], map[], map[];
      new;
      RunKeepsRules([]);
    }

    method NextValue() returns (n: nat)
      modifies this
      ensures Rows() == old(Rows()).(next := n) && n == old(next) + 1
    {
      next := next + 1;
      n := next;
    }

    /** An UPDATE of the writer columns; the trigger draws the epoch of a new owner. */
    method UpdateWriter(w: Id, writer: Writer) returns (epoch: nat)
      requires w in workspaces
      modifies this
      ensures Rows() == SetWriter(old(Rows()), w, writer)
      ensures epoch == workspaces[w].epoch
    {
      var row := workspaces[w].(writer := writer);
      if !writer.Nobody? && !SameOwner(writer, workspaces[w].writer) {
        var drawn := NextValue();
        row := row.(epoch := drawn);
      }
      workspaces := workspaces[w := row];
      epoch := row.epoch;
    }

    /** The claim of apps/supervisor/src/files.ts, for a row that the tick selected. It takes a free slot
        under an epoch above all others; a Git operation has then its project to itself. */
    method ClaimFileRow(x: Id) returns (admitted: bool)
      requires Valid() && x in files && files[x].workspace in workspaces
      modifies this
      ensures admitted <==> CanClaimFile(old(Rows()), x)
      ensures Rows() == if admitted then ClaimFile(old(Rows()), x) else old(Rows())
      ensures old(files[x].state.Queued?) ==> Valid() && OnlyFile(old(Rows()), Rows(), x)
      ensures admitted && old(files[x].state.Queued?) ==>
                && old(workspaces[files[x].workspace].writer.Nobody?) && files[x].state.Dispatching?
                && workspaces[files[x].workspace].writer == FileWriter(x)
                && files[x].epoch == workspaces[files[x].workspace].epoch
                && (forall w :: w in old(workspaces) ==> old(workspaces)[w].epoch < files[x].epoch)
                && (IsGit(files[x]) ==> HasProjectAlone(Rows(), x))
    {
      ghost var before := Rows();
      admitted := ClaimingFile(x);
      if admitted && before.files[x].state.Queued? { FileClaimed(before, x); }
    }

    method ClaimingFile(x: Id) returns (admitted: bool)
      requires x in files && files[x].workspace in workspaces
      modifies this
      ensures admitted <==> CanClaimFile(old(Rows()), x)
      ensures Rows() == if admitted then ClaimFile(old(Rows()), x) else old(Rows())
    {
      var w := files[x].workspace;
      var project := workspaces[w].project;
      if !workspaces[w].writer.Nobody? || !workspaces[w].ready || project in archived { return false; }
      if project in storage { return false; }
      if GitPending(Rows(), project) { return false; }
      if !files[x].kind.Save? && (ProjectHasWriter(Rows(), project) || ProjectHasReader(Rows(), project)) {
        return false;
      }
      var epoch := NextValue();
      epoch := UpdateWriter(w, FileWriter(x));
      if files[x].state.Queued? {
        files := files[x := files[x].(state := Dispatching, epoch := epoch)];
      }
      admitted := true;
    }

    /** `failDependentFiles`: one UPDATE of the queued rows that depend on this one. What was queued in
        its workspace fails, and for a Git operation what was queued as one in its project. */
    method FailDependentFiles(x: Id)
      requires x in files
      modifies this
      ensures Rows() == FailDependents(old(Rows()), {x})
      ensures files.Keys == old(files).Keys && x in old(files)
      ensures forall y :: y in files ==>
                files[y] == if old(files)[y].state.Queued? && Beside(old(Rows()), x, y)
                            then old(files)[y].(state := Failed) else old(files)[y]
    {
      ghost var before := Rows();
      var d := Rows();
      files := map y | y in files ::
        if files[y].state.Queued? && Depends(d, x, y) then files[y].(state := Failed) else files[y];
      assert files == FailDependents(before, {x}).files;
    }

    /** `settle`: a stale epoch changes nothing, a row that already ended stays as it is; a row that ends
        gives its slot back in the same transaction, an uncertain one keeps it. */
    method SettleFile(x: Id, state: FileState, epoch: nat)
      requires Valid() && x in files && files[x].workspace in workspaces
      requires state.Succeeded? || state.Failed? || state.Uncertain?
      modifies this
      ensures Rows() == Settle(old(Rows()), x, state, epoch)
      ensures !(state.Uncertain? && old(files[x].state.Queued?)) ==> Valid()
      ensures previews == old(previews) && readers == old(readers) && old(LeaseRules(Rows())) && Valid() ==>
                LeaseRules(Rows())
    {
      ghost var before := Rows();
      Settling(x, state, epoch);
      assert Rows() == Apply(before, SettleTx(x, state, epoch));
      if !(state.Uncertain? && before.files[x].state.Queued?) { Keeps(before, SettleTx(x, state, epoch)); }
    }

    method Settling(x: Id, state: FileState, epoch: nat)
      requires x in files && files[x].workspace in workspaces
      requires state.Succeeded? || state.Failed? || state.Uncertain?
      modifies this
      ensures Rows() == Settle(old(Rows()), x, state, epoch)
    {
      var w := files[x].workspace;
      var writer, held := workspaces[w].writer, workspaces[w].epoch;
      if writer == FileWriter(x) && epoch != 0 && held != epoch { return; }
      if !files[x].state.Queued? && !files[x].state.Dispatching? { return; }
      files := files[x := files[x].(state := state)];
      if state.Uncertain? { FailDependentFiles(x); }
      if !state.Uncertain? && writer == FileWriter(x) && (epoch == 0 || held == epoch) {
        var _ := UpdateWriter(w, Nobody);
      }
    }

    /** `recoverFileStartup`: every dispatching row is in doubt, and each takes its dependents down. */
    method RecoverFileStartup()
      requires Valid()
      modifies this
      ensures Valid() && Rows() == RecoverStartup(old(Rows()))
      ensures workspaces == old(workspaces) && forall x :: x in files ==> !files[x].state.Dispatching?
      ensures files.Keys == old(files).Keys && forall y :: y in files ==>
                files[y] == if old(files)[y].state.Dispatching? then old(files)[y].(state := Uncertain)
                            else if WaitsBeside(old(Rows()), y) then old(files)[y].(state := Failed)
                            else old(files)[y]
    {
      hide FailDependents, Rules;
      ghost var before := Rows();
      var lost := set x | x in files && files[x].state.Dispatching?;
      files := map y | y in files :: if y in lost then files[y].(state := Uncertain) else files[y];
      FailDependentsOf(lost);
      assert Rows() == RecoverStartup(before) == Apply(before, RecoverStartupTx);
      Keeps(before, RecoverStartupTx);
      NobodyDispatches(before);
      StartupFailsTheQueued(before);
    }

    method FailDependentsOf(changed: set<Id>)
      requires changed <= files.Keys && forall x :: x in changed ==> !files[x].state.Queued?
      modifies this
      ensures Rows() == FailDependents(old(Rows()), changed)
    {
      hide FailDependents;
      ghost var before := Rows();
      var left, done := changed, {};
      NoDependents(before);
      while left != {}
        invariant left !! done && left + done == changed
        invariant Rows() == FailDependents(before, done)
        decreases |left|
      {
        var x :| x in left;
        DependentsOneByOne(before, done, x);
        KeepsRows(before, done);
        FailDependentFiles(x);
        left, done := left - {x}, done + {x};
      }
      assert done == changed;
    }

    /** The release route of apps/api/src/files.ts: the exact inspection, owner and epoch, or nothing. A
        released workspace is free, and its operation reserves nothing any more. */
    method ReleaseFileOperation(x: Id, expected: nat) returns (released: bool)
      requires Valid() && x in files && files[x].workspace in workspaces
      modifies this
      ensures Valid() && OnlyFile(old(Rows()), Rows(), x)
      ensures released <==> OwnsEpoch(old(Rows()), x, expected) && old(files[x].inspection) == Ready(expected)
      ensures released ==>
                && workspaces[files[x].workspace].writer.Nobody?
                && !Unresolved(files[x]) && files[x].inspection.Consumed?
                && files[x].state == old(files[x].state) && workspaces[files[x].workspace].epoch == expected
      ensures !released ==> Rows() == old(Rows())
    {
      ghost var before := Rows();
      released := Releasing(x, expected);
      if released { FileReleased(before, x, expected); }
    }

    method Releasing(x: Id, expected: nat) returns (released: bool)
      requires x in files && files[x].workspace in workspaces
      modifies this
      ensures Rows() == ReleaseFile(old(Rows()), x, expected)
      ensures released <==> OwnsEpoch(old(Rows()), x, expected) && old(files[x].inspection) == Ready(expected)
    {
      var w := files[x].workspace;
      if files[x].inspection != Ready(expected) || workspaces[w].writer != FileWriter(x)
          || workspaces[w].epoch != expected {
        return false;
      }
      if files[x].state.Uncertain? {
        files := files[x := files[x].(acknowledged := true)];
      }
      var _ := UpdateWriter(w, Nobody);
      files := files[x := files[x].(inspection := Consumed)];
      released := true;
    }

    /** `claimWorkspace` for a managed conversation without a runtime of its own: it takes a free slot of
        a project without pending Git or storage operation, under an epoch above all others. */
    method ClaimWorkspace(w: Id, session: Id, generation: nat) returns (claimed: bool)
      requires Valid()
      modifies this
      ensures Valid() && OnlySlot(old(Rows()), Rows(), w)
      ensures claimed <==> CanClaimConversation(old(Rows()), w)
      ensures claimed ==>
                && w in workspaces && workspaces[w].writer == Conversation(session, generation)
                && (forall v :: v in old(workspaces) ==> old(workspaces)[v].epoch < workspaces[w].epoch)
                && !GitPending(Rows(), workspaces[w].project) && workspaces[w].project !in storage
      ensures !claimed ==> Rows() == old(Rows())
    {
      ghost var before := Rows();
      claimed := ClaimingWorkspace(w, session, generation);
      if claimed { ConversationClaimed(before, w, session, generation); }
    }

    method ClaimingWorkspace(w: Id, session: Id, generation: nat) returns (claimed: bool)
      modifies this
      ensures claimed <==> CanClaimConversation(old(Rows()), w)
      ensures Rows() == ClaimConversation(old(Rows()), w, session, generation)
    {
      if w !in workspaces || !workspaces[w].ready || workspaces[w].project in archived { return false; }
      var project := workspaces[w].project;
      if GitPending(Rows(), project) { return false; }
      if !workspaces[w].writer.Nobody? || project in storage { return false; }
      var _ := UpdateWriter(w, Conversation(session, generation));
      claimed := true;
    }

    /** `releaseWorkspace`: the slot becomes free only for the exact session and generation, without a turn
        that is active or in doubt; a slot of anybody else stays, and no epoch changes. */
    method ReleaseWorkspace(w: Id, session: Id, generation: nat)
      requires Valid()
      modifies this
      ensures Valid() && OnlySlot(old(Rows()), Rows(), w) && next == old(next)
      ensures w in workspaces ==> workspaces[w].epoch == old(workspaces)[w].epoch
      ensures w in workspaces ==>
                (workspaces[w].writer != old(workspaces)[w].writer <==>
                   old(workspaces)[w].writer == Conversation(session, generation) && session !in busy)
      ensures w in workspaces && workspaces[w].writer != old(workspaces)[w].writer ==> workspaces[w].writer.Nobody?
    {
      ghost var before := Rows();
      if w !in workspaces { return; }
      if session !in busy && workspaces[w].writer == Conversation(session, generation) {
        var _ := UpdateWriter(w, Nobody);
      }
      assert Rows() == Apply(before, ReleaseConversationTx(w, session, generation));
      Keeps(before, ReleaseConversationTx(w, session, generation));
    }

    /** The start route of apps/api/src/previews.ts. The start has a generation above every generation
        and epoch so far, is the only one waiting in its workspace, and takes no lease yet. */
    method StartPreviewRow(p: Id) returns (started: bool)
      requires Valid() && p in previews && previews[p].workspace in workspaces
      modifies this
      ensures Valid() && OnlyPreview(old(Rows()), Rows(), p)
      ensures started <==> CanStart(old(Rows()), p)
      ensures started ==>
                && previews[p] == old(previews)[p].(state := Waiting, generation := previews[p].generation)
                && (forall q :: q in old(previews) ==> old(previews)[q].generation < previews[p].generation)
                && (forall w :: w in workspaces ==> workspaces[w].epoch < previews[p].generation)
                && (forall q :: q in previews && q != p && previews[q].state.Waiting? ==>
                    previews[q].workspace != previews[p].workspace)
      ensures !started ==> Rows() == old(Rows())
    {
      ghost var before := Rows();
      started := StartingPreview(p);
      if started { PreviewStarted(before, p); }
    }

    method StartingPreview(p: Id) returns (started: bool)
      requires p in previews && previews[p].workspace in workspaces
      modifies this
      ensures started <==> CanStart(old(Rows()), p)
      ensures Rows() == StartPreview(old(Rows()), p)
    {
      if !previews[p].retired || previews[p].state.Waiting? { return false; }
      var w := previews[p].workspace;
      if !workspaces[w].ready || workspaces[w].project in archived { return false; }
      if exists q :: q in previews && previews[q].workspace == w && previews[q].state.Waiting? { return false; }
      var generation := NextValue();
      previews := previews[p := previews[p].(state := Waiting, generation := generation)];
      started := true;
    }

    /** The stop route: a stop neither retires nor frees anything. Only a current generation is stopped;
        a live row then waits for its retirement, and its lease is where it was. */
    method StopPreviewRow(p: Id, expected: nat)
      requires Valid() && p in previews
      modifies this
      ensures Valid() && OnlyPreview(old(Rows()), Rows(), p)
      ensures previews[p] == old(previews)[p].(state := previews[p].state)
      ensures expected == old(previews)[p].generation ==>
                if previews[p].retired then previews[p].state.Stopped?
                else previews[p].state.Stopping? && previews[p].lease != 0
      ensures expected != old(previews)[p].generation ==> Rows() == old(Rows())
      ensures LeaseHeld(Rows(), p) <==> old(LeaseHeld(Rows(), p))
    {
      ghost var before := Rows();
      StoppingPreview(p, expected);
      PreviewStopped(before, p, expected);
    }

    method StoppingPreview(p: Id, expected: nat)
      requires p in previews
      modifies this
      ensures Rows() == StopPreview(old(Rows()), p, expected)
    {
      if previews[p].generation != expected { return; }
      if previews[p].state.Stopping? { return; }
      if previews[p].retired {
        previews := previews[p := previews[p].(state := Stopped)];
      } else {
        previews := previews[p := previews[p].(state := Stopping)];
      }
    }

    /** The admission in the tick of apps/supervisor/src/previews.ts. The profile, and the generation
        that a reader row gets, are those of the row that the tick selected earlier: the lease is the one
        that the row will look for exactly when that copy was current. */
    method AdmitPreview(p: Id, seen: Preview) returns (accepted: bool)
      requires Valid() && p in previews && previews[p].workspace in workspaces
      modifies this
      ensures Valid() && files == old(files)
      ensures accepted <==> CanClaimPreview(old(Rows()), p, seen)
      ensures accepted ==>
                && p in previews && PlacedAt(Rows(), p, previews[p].workspace) && previews[p].lease == next > old(next)
                && !GitPending(Rows(), workspaces[previews[p].workspace].project)
                && (old(LeaseRules(Rows())) ==> (LeaseHeld(Rows(), p) <==> old(ClaimIsCurrent(Rows(), p, seen))))
                && (old(LeaseRules(Rows())) && old(ClaimIsCurrent(Rows(), p, seen)) ==> LeaseRules(Rows()))
      ensures !accepted ==> Rows() == old(Rows())
    {
      ghost var before := Rows();
      accepted := Admitting(p, seen);
      if accepted { PreviewClaimed(before, p, seen); }
    }

    method Admitting(p: Id, seen: Preview) returns (accepted: bool)
      requires p in previews && previews[p].workspace in workspaces
      modifies this
      ensures accepted <==> CanClaimPreview(old(Rows()), p, seen)
      ensures Rows() == ClaimPreview(old(Rows()), p, seen)
    {
      if !previews[p].state.Waiting? { return false; }
      var w := previews[p].workspace;
      if !workspaces[w].ready || workspaces[w].project in archived { return false; }
      if exists q :: q in previews && previews[q].workspace == w && !previews[q].retired { return false; }
      if seen.writes && !workspaces[w].writer.Nobody? { return false; }
      if workspaces[w].project in storage || GitPending(Rows(), workspaces[w].project) { return false; }
      if |LivePreviews(Rows())| >= 4 { return false; }
      var lease: nat;
      if seen.writes {
        lease := UpdateWriter(w, PreviewWriter(p));
      } else {
        if p in readers { return false; }
        lease := NextValue();
        readers := readers[p := Reader(w, lease, seen.generation)];
      }
      previews := previews[p := previews[p].(state := Starting, retired := false, lease := lease)];
      accepted := true;
    }

    /** The settlement of a retirement, once relay and runner are known to be gone: the current generation
        with its lease in place is retired and holds nothing any more; any other one is left alone. */
    method RetirePreview(p: Id, generation: nat, state: PreviewState) returns (settled: bool)
      requires Valid() && p in previews && previews[p].workspace in workspaces
      requires state.Stopped? || state.Exited? || state.Broken?
      modifies this
      ensures Valid() && files == old(files) && (old(LeaseRules(Rows())) ==> LeaseRules(Rows()))
      ensures settled <==>
                old(previews[p].generation) == generation && (old(previews[p].retired) || old(LeaseHeld(Rows(), p)))
      ensures settled ==>
                && p in previews && previews[p].retired && previews[p].lease == 0 && previews[p].state == state
                && (old(LeaseRules(Rows())) ==> !PlacedAt(Rows(), p, previews[p].workspace))
                && LivePreviews(Rows()) == old(LivePreviews(Rows())) - {p}
      ensures !settled ==> Rows() == old(Rows())
    {
      ghost var before := Rows();
      settled := Retiring(p, generation, state);
      assert Rows() == Apply(before, SettleRetirementTx(p, generation, state));
      Keeps(before, SettleRetirementTx(p, generation, state));
      if settled {
        RetiredHoldsNothing(before, Rows(), p);
      }
    }

    method Retiring(p: Id, generation: nat, state: PreviewState) returns (settled: bool)
      requires p in previews && previews[p].workspace in workspaces
      requires state.Stopped? || state.Exited? || state.Broken?
      modifies this
      ensures Rows() == SettleRetirement(old(Rows()), p, generation, state) && files == old(files)
      ensures settled <==>
                old(previews[p].generation) == generation && (old(previews[p].lease) == 0 || old(LeaseHeld(Rows(), p)))
      ensures previews.Keys == old(previews).Keys
      ensures forall q :: q in previews && q != p ==> previews[q] == old(previews)[q]
      ensures settled ==> previews[p] == old(previews)[p].(state := state, retired := true, lease := 0)
      ensures !settled ==> Rows() == old(Rows())
    {
      if previews[p].generation != generation { return false; }
      if previews[p].lease != 0 {
        if !LeaseHeld(Rows(), p) { return false; }
        if previews[p].writes {
          var _ := UpdateWriter(previews[p].workspace, Nobody);
        } else {
          readers := readers - {p};
        }
      }
      previews := previews[p := previews[p].(state := state, retired := true, lease := 0)];
      settled := true;
    }
  }

  lemma NobodyDispatches(d: Db)
    ensures RecoverStartup(d).workspaces == d.workspaces
    ensures forall x :: x in RecoverStartup(d).files ==> !RecoverStartup(d).files[x].state.Dispatching?
  {
  }

  /** Slots may have changed hands, but no workspace its project, and no file operation changed. */
  lemma SameProjects(d: Db, d': Db, project: Id)
    requires d'.files == d.files && d'.workspaces.Keys == d.workspaces.Keys
    requires forall w :: w in d.workspaces ==> d'.workspaces[w].project == d.workspaces[w].project
    requires !GitPending(d, project)
    ensures !GitPending(d', project)
  {
  }

  lemma RetiredHoldsNothing(d: Db, d': Db, p: Id)
    requires p in d.previews && d'.previews.Keys == d.previews.Keys && d'.previews[p].retired
    requires d'.previews[p].workspace == d.previews[p].workspace
    requires forall q :: q in d.previews && q != p ==> d'.previews[q] == d.previews[q]
    requires LeaseRules(d) ==> LeaseRules(d')
    ensures LivePreviews(d') == LivePreviews(d) - {p}
    ensures LeaseRules(d) ==> !PlacedAt(d', p, d'.previews[p].workspace)
  {
    if LeaseRules(d) { assert PreviewSlotsOwned(d') && ReadersOwned(d'); }
  }
}
