/** The preview machine over every transaction: what holds always, and what holds exactly when
    no claim acts on a row that was restarted after the supervisor selected it. */
module PreviewLeases {
  import opened Reservations
  import opened ReservationRules

  // ----- transactions that are not about previews ------------------------------------------

  /** File and conversation transactions leave preview rows, readers and preview slots alone. */
  ghost predicate PreviewsUntouched(d: Db, d': Db) {
    && d'.previews == d.previews && d'.readers == d.readers && d.next <= d'.next
    && d.workspaces.Keys <= d'.workspaces.Keys
    && (forall w :: w in d.workspaces && d.workspaces[w].writer.PreviewWriter? ==>
          d'.workspaces[w].writer == d.workspaces[w].writer && d'.workspaces[w].epoch == d.workspaces[w].epoch)
    && (forall w :: w in d'.workspaces && d'.workspaces[w].writer.PreviewWriter? ==>
          w in d.workspaces && d.workspaces[w].writer == d'.workspaces[w].writer)
    && ((forall w :: w in d.workspaces ==> d.workspaces[w].epoch <= d.next) ==>
         forall w :: w in d'.workspaces ==> d'.workspaces[w].epoch <= d'.next)
  }

  /** One slot moves between owners that are not previews. */
  lemma SlotLeavesPreviews(d: Db, d': Db, w: Id, row: Workspace)
    requires d'.previews == d.previews && d'.readers == d.readers && d.next <= d'.next
    requires w in d.workspaces && d'.workspaces == d.workspaces[w := row]
    requires !d.workspaces[w].writer.PreviewWriter? && !row.writer.PreviewWriter?
    requires row.epoch == d.workspaces[w].epoch || row.epoch <= d'.next
    ensures PreviewsUntouched(d, d')
  {
  }

  lemma RowsLeavePreviews(d: Db, d': Db)
    requires d' == d.(files := d'.files)
    ensures PreviewsUntouched(d, d')
  {
  }

  lemma SettleLeavesPreviews(d: Db, x: Id, state: FileState, epoch: nat)
    requires FileRules(d) && x in d.files && Settles(state)
    ensures PreviewsUntouched(d, Settle(d, x, state, epoch))
  {
    var d' := Settle(d, x, state, epoch);
    var w := d.files[x].workspace;
    if d.workspaces[w].writer == FileWriter(x) {
      assert d'.workspaces == d.workspaces || d'.workspaces == d.workspaces[w := d'.workspaces[w]];
      if d'.workspaces == d.workspaces { RowsLeavePreviews(d, d'); }
      else { SlotLeavesPreviews(d, d', w, d'.workspaces[w]); }
    } else {
      RowsLeavePreviews(d, d');
    }
  }

  lemma FileTxLeavesPreviews(d: Db, tx: Tx)
    requires FileRules(d) && IsFileTx(tx)
    ensures PreviewsUntouched(d, ApplyFile(d, tx))
  {
    var d' := ApplyFile(d, tx);
    if tx.SettleTx? {
      if tx.x in d.files && Settles(tx.state) { SettleLeavesPreviews(d, tx.x, tx.state, tx.epoch); }
    } else if tx.ClaimFileTx? {
      if CanClaimFile(d, tx.x) {
        SlotLeavesPreviews(d, d', d.files[tx.x].workspace, d'.workspaces[d.files[tx.x].workspace]);
      }
    } else if tx.FinishInspectionTx? {
      if CanInspect(d, tx.x) {
        SlotLeavesPreviews(d, d', d.files[tx.x].workspace, d'.workspaces[d.files[tx.x].workspace]);
      }
    } else if tx.ReleaseFileTx? {
      if d' != d { SlotLeavesPreviews(d, d', d.files[tx.x].workspace, d'.workspaces[d.files[tx.x].workspace]); }
    } else {
      RowsLeavePreviews(d, d');
    }
  }

  lemma OtherTxLeavesPreviews(d: Db, tx: Tx)
    requires !IsFileTx(tx) && !IsPreviewTx(tx)
    ensures PreviewsUntouched(d, Apply(d, tx))
  {
    hide ApplyFile, ApplyPreview;
    var d' := Apply(d, tx);
    if (tx.ClaimConversationTx? || tx.RegenerateTx? || tx.ReleaseConversationTx?) && d' != d {
      SlotLeavesPreviews(d, d', tx.w, d'.workspaces[tx.w]);
    }
  }

  lemma UntouchedKeeps(d: Db, d': Db)
    requires PreviewsUntouched(d, d') && PreviewRules(d)
    ensures PreviewRules(d')
    ensures LeaseRules(d) ==> LeaseRules(d')
  {
    assert LivePreviews(d') == LivePreviews(d);
    forall p | LeaseRules(d) && p in d'.previews && !d'.previews[p].retired ensures LeaseHeld(d', p) {
      assert LeaseHeld(d, p);
    }
  }

  // ----- transactions on one preview row -----------------------------------------------------

  predicate SameLife(a: Preview, b: Preview) {
    b.workspace == a.workspace && b.retired == a.retired && b.lease == a.lease && (Live(b.state) <==> !b.retired)
  }

  /** A row change that neither retires nor revives. */
  lemma RowChangeKeepsRules(d: Db, p: Id, row: Preview, next: nat)
    requires PreviewRules(d) && p in d.previews && d.next <= next
    requires SameLife(d.previews[p], row) && row.generation <= next
    ensures PreviewRules(d.(next := next, previews := d.previews[p := row]))
  {
    var d' := d.(next := next, previews := d.previews[p := row]);
    assert LivePreviews(d') == LivePreviews(d);
  }

  lemma RowChangeKeepsLeases(d: Db, p: Id, row: Preview, next: nat)
    requires Linked(d) && LeaseRules(d) && p in d.previews && SameLife(d.previews[p], row)
    requires row.retired || (row.writes == d.previews[p].writes && row.generation == d.previews[p].generation)
    ensures LeaseRules(d.(next := next, previews := d.previews[p := row]))
  {
    var d' := d.(next := next, previews := d.previews[p := row]);
    forall q | q in d'.previews && !d'.previews[q].retired ensures LeaseHeld(d', q) {
      assert LeaseHeld(d, q);
    }
  }

  lemma RowChangeKeeps(d: Db, tx: Tx)
    requires Linked(d) && PreviewRules(d)
    requires tx.PatchPreviewTx? || tx.StartPreviewTx? || tx.StopPreviewTx? || tx.MarkReadyTx? || tx.ForceStopTx?
          || tx.DoubtRetirementTx? || tx.FailWaitingTx?
    ensures PreviewRules(ApplyPreview(d, tx))
    ensures LeaseRules(d) ==> LeaseRules(ApplyPreview(d, tx))
  {
    var d' := ApplyPreview(d, tx);
    if d' != d {
      assert SameLife(d.previews[tx.p], d'.previews[tx.p]);
      RowChangeKeepsRules(d, tx.p, d'.previews[tx.p], d'.next);
      if LeaseRules(d) { RowChangeKeepsLeases(d, tx.p, d'.previews[tx.p], d'.next); }
    }
  }

  lemma StopAllKeeps(d: Db)
    requires Linked(d) && PreviewRules(d)
    ensures PreviewRules(StopAllPreviews(d))
    ensures LeaseRules(d) ==> LeaseRules(StopAllPreviews(d))
  {
    hide StopAllPreviews, PreviewRules, LeaseRules;
    StopAllShape(d);
    StoppedKeepRules(d, StopAllPreviews(d));
    if LeaseRules(d) { StoppedKeepLeases(d, StopAllPreviews(d)); }
  }

  lemma StopAllShape(d: Db)
    ensures StopAllPreviews(d) == d.(previews := StopAllPreviews(d).previews)
    ensures Restated(d, StopAllPreviews(d))
  {
  }

  /** What is starting or running is stopping from then on, and no other row changes. */
  lemma StopAllStops(d: Db, p: Id)
    requires PreviewRules(d) && p in d.previews
    ensures p in StopAllPreviews(d).previews
    ensures StopAllPreviews(d).previews[p] ==
            if d.previews[p].state.Starting? || d.previews[p].state.Running? then d.previews[p].(state := Stopping)
            else d.previews[p]
  {
    assert Live(d.previews[p].state) <==> !d.previews[p].retired;
  }

  /** Live rows may have changed their state, among the states of a live row. */
  ghost predicate Restated(d: Db, d': Db) {
    && d'.previews.Keys == d.previews.Keys
    && forall p :: p in d.previews ==>
         || d'.previews[p] == d.previews[p]
         || (!d.previews[p].retired && d'.previews[p] == d.previews[p].(state := Stopping))
  }

  lemma StoppedKeepRules(d: Db, d': Db)
    requires PreviewRules(d) && d' == d.(previews := d'.previews) && Restated(d, d')
    ensures PreviewRules(d')
  {
    assert LivePreviews(d') == LivePreviews(d);
  }

  lemma StoppedKeepLeases(d: Db, d': Db)
    requires LeaseRules(d) && d' == d.(previews := d'.previews) && Restated(d, d')
    ensures LeaseRules(d')
  {
    forall q | q in d'.previews && !d'.previews[q].retired ensures LeaseHeld(d', q) {
      assert LeaseHeld(d, q);
    }
  }

  /** Creating or deleting a retired record. */
  lemma RecordKeepsRules(d: Db, d': Db, p: Id)
    requires PreviewRules(d) && d' == d.(previews := d'.previews)
    requires p in d.previews ==> d.previews[p].retired
    requires d'.previews == d.previews - {p} ||
             exists w, writes :: d'.previews == d.previews[p := Preview(w, writes, Created, true, 0, 0)]
    ensures PreviewRules(d')
  {
    assert LivePreviews(d') == LivePreviews(d);
  }

  lemma RecordKeepsLeases(d: Db, d': Db, p: Id)
    requires LeaseRules(d) && d' == d.(previews := d'.previews)
    requires p in d.previews ==> d.previews[p].retired
    requires p in d'.previews ==> d'.previews[p].retired
    requires d'.previews - {p} == d.previews - {p}
    ensures LeaseRules(d')
  {
    forall q | q in d'.previews && !d'.previews[q].retired ensures LeaseHeld(d', q) {
      assert q in d'.previews - {p};
      assert LeaseHeld(d, q);
    }
    forall q | q in d.previews && !d.previews[q].retired ensures q in d'.previews && d'.previews[q] == d.previews[q] {
      assert q in d.previews - {p};
    }
  }

  lemma RecordShape(d: Db, tx: Tx)
    requires (tx.CreatePreviewTx? || tx.DeletePreviewTx?) && ApplyPreview(d, tx) != d
    ensures var d' := ApplyPreview(d, tx);
            && d' == d.(previews := d'.previews)
            && (tx.p in d.previews ==> d.previews[tx.p].retired) && (tx.p in d'.previews ==> d'.previews[tx.p].retired)
            && d'.previews - {tx.p} == d.previews - {tx.p}
            && d'.previews == if tx.CreatePreviewTx?
                              then d.previews[tx.p := Preview(tx.w, tx.writes, Created, true, 0, 0)]
                              else d.previews - {tx.p}
  {
    hide Usable;
  }

  lemma RecordKeeps(d: Db, tx: Tx)
    requires Linked(d) && PreviewRules(d) && (tx.CreatePreviewTx? || tx.DeletePreviewTx?)
    ensures PreviewRules(ApplyPreview(d, tx))
    ensures LeaseRules(d) ==> LeaseRules(ApplyPreview(d, tx))
  {
    assert IsPreviewTx(tx);
    hide *;
    if ApplyPreview(d, tx) != d {
      RecordShape(d, tx);
      RecordKeepsRules(d, ApplyPreview(d, tx), tx.p);
      if LeaseRules(d) { RecordKeepsLeases(d, ApplyPreview(d, tx), tx.p); }
    }
  }

  // ----- claim and retirement -------------------------------------------------------------------

  /** The captured row agrees with the stored one in everything the claim uses. */
  predicate ClaimIsCurrent(d: Db, p: Id, seen: Preview) {
    p in d.previews && seen.writes == d.previews[p].writes
    && (!seen.writes ==> seen.generation == d.previews[p].generation)
  }

  /** One row comes to life or retires, and nothing but slots changes besides. */
  lemma RowTurns(d: Db, d': Db, p: Id, row: Preview)
    requires PreviewRules(d) && p in d.previews && d'.previews == d.previews[p := row]
    requires row.workspace == d.previews[p].workspace && (row.retired <==> row.lease == 0)
    requires (Live(row.state) <==> !row.retired)
    requires row.generation <= d'.next && row.lease <= d'.next && d.next <= d'.next
    requires forall w :: w in d'.workspaces ==> d'.workspaces[w].epoch <= d'.next
    requires !row.retired ==> |LivePreviews(d)| < 4
    requires !row.retired ==> forall q :: q in LivePreviews(d) ==> d.previews[q].workspace != row.workspace
    ensures PreviewRules(d')
  {
    if row.retired {
      assert LivePreviews(d') == LivePreviews(d) - {p};
    } else {
      assert LivePreviews(d') == LivePreviews(d) + {p};
    }
  }

  lemma ClaimKeepsPreviewRules(d: Db, p: Id, seen: Preview)
    requires Linked(d) && PreviewRules(d)
    ensures PreviewRules(ClaimPreview(d, p, seen))
  {
    hide GitPending, Usable;
    if CanClaimPreview(d, p, seen) {
      var d' := ClaimPreview(d, p, seen);
      RowTurns(d, d', p, d'.previews[p]);
    }
  }

  /** The lease that a claim takes is the lease its row will look for exactly when the
      captured row was current. */
  lemma ClaimLeaseExact(d: Db, p: Id, seen: Preview)
    requires Linked(d) && PreviewRules(d) && LeaseRules(d) && CanClaimPreview(d, p, seen)
    ensures LeaseHeld(ClaimPreview(d, p, seen), p) <==> ClaimIsCurrent(d, p, seen)
  {
  }

  lemma ClaimKeepsLeases(d: Db, p: Id, seen: Preview)
    requires Linked(d) && PreviewRules(d) && LeaseRules(d)
    requires CanClaimPreview(d, p, seen) ==> ClaimIsCurrent(d, p, seen)
    ensures LeaseRules(ClaimPreview(d, p, seen))
  {
    if CanClaimPreview(d, p, seen) {
      var d' := ClaimPreview(d, p, seen);
      ClaimLeaseExact(d, p, seen);
      ClaimShape(d, p, seen);
      assert d.previews[p].retired;
      hide *;
      ClaimHoldsOthers(d, d', p, seen);
      ClaimOwns(d, d', p, seen);
      AllLeaseRules(d');
    }
  }

  lemma AllLeaseRules(d: Db)
    requires AllHeld(d) && PreviewSlotsOwned(d) && ReadersOwned(d)
    ensures LeaseRules(d)
  {
  }

  lemma ClaimOwns(d: Db, d': Db, p: Id, seen: Preview)
    requires LeaseRules(d) && CanClaimPreview(d, p, seen) && ClaimShaped(d, d', p, seen)
    requires d.previews[p].retired && ClaimIsCurrent(d, p, seen)
    ensures PreviewSlotsOwned(d') && ReadersOwned(d')
  {
    hide CanClaimPreview, AllHeld;
  }

  lemma ClaimHoldsOthers(d: Db, d': Db, p: Id, seen: Preview)
    requires Linked(d) && LeaseRules(d) && CanClaimPreview(d, p, seen) && ClaimShaped(d, d', p, seen)
    requires LeaseHeld(d', p)
    ensures AllHeld(d')
  {
    hide CanClaimPreview;
    forall q | q in d'.previews && !d'.previews[q].retired ensures LeaseHeld(d', q) {
      if q != p { assert LeaseHeld(d, q); }
    }
  }

  /** What an admitted claim changes: its own row, and either the free slot or its reader row. */
  ghost predicate ClaimShaped(d: Db, d': Db, p: Id, seen: Preview)
    requires CanClaimPreview(d, p, seen)
  {
    var w := d.previews[p].workspace;
    && d'.previews == d.previews[p := d.previews[p].(state := Starting, retired := false, lease := d'.next)]
    && (if seen.writes
        then d'.readers == d.readers && d.workspaces[w].writer.Nobody?
             && d'.workspaces == d.workspaces[w := d.workspaces[w].(writer := PreviewWriter(p), epoch := d'.next)]
        else d'.workspaces == d.workspaces && p !in d.readers
             && d'.readers == d.readers[p := Reader(w, d'.next, seen.generation)])
  }

  lemma ClaimShape(d: Db, p: Id, seen: Preview)
    requires CanClaimPreview(d, p, seen)
    ensures ClaimShaped(d, ClaimPreview(d, p, seen), p, seen)
  {
    hide GitPending, LivePreviews;
  }

  lemma SettlementKeepsRules(d: Db, p: Id, generation: nat, state: PreviewState)
    requires Linked(d) && PreviewRules(d) && Outcome(state)
    ensures PreviewRules(SettleRetirement(d, p, generation, state))
  {
    hide LeaseHeld;
    var d' := SettleRetirement(d, p, generation, state);
    if d' != d {
      RowTurns(d, d', p, d'.previews[p]);
    }
  }

  lemma DropKeepsOthers(d: Db, p: Id)
    requires Linked(d) && PreviewRules(d) && LeaseRules(d) && LeaseHeld(d, p) && !d.previews[p].retired
    ensures forall q :: q in d.previews && !d.previews[q].retired && q != p ==> LeaseHeld(DropLease(d, p), q)
    ensures forall w :: w in d.workspaces && DropLease(d, p).workspaces[w].writer.PreviewWriter? ==>
      DropLease(d, p).workspaces[w].writer == d.workspaces[w].writer && d.workspaces[w].writer.id != p
    ensures forall r :: r in DropLease(d, p).readers ==> r in d.readers && r != p
  {
    forall q | q in d.previews && !d.previews[q].retired && q != p ensures LeaseHeld(DropLease(d, p), q) {
      assert LeaseHeld(d, q);
    }
  }

  /** The rows after the lease went: the others are held, and what is left of slots and readers is theirs. */
  lemma SettledLeases(d: Db, d1: Db, p: Id, row: Preview)
    requires LeaseRules(d) && p in d.previews && row.retired && d1.previews == d.previews
    requires d1.workspaces.Keys == d.workspaces.Keys
    requires forall q :: q in d.previews && !d.previews[q].retired && q != p ==> LeaseHeld(d1, q)
    requires forall w :: w in d.workspaces && d1.workspaces[w].writer.PreviewWriter? ==>
      d1.workspaces[w].writer == d.workspaces[w].writer && d.workspaces[w].writer.id != p
    requires forall r :: r in d1.readers ==> r in d.readers && r != p
    ensures LeaseRules(d1.(previews := d1.previews[p := row]))
  {
    var d' := d1.(previews := d1.previews[p := row]);
    forall q | q in d'.previews && !d'.previews[q].retired ensures LeaseHeld(d', q) {
      assert LeaseHeld(d1, q);
    }
    hide LeaseHeld, AllHeld;
    assert PreviewSlotsOwned(d') && ReadersOwned(d');
  }

  lemma SettlementKeepsLeases(d: Db, p: Id, generation: nat, state: PreviewState)
    requires Linked(d) && PreviewRules(d) && LeaseRules(d) && Outcome(state)
    ensures LeaseRules(SettleRetirement(d, p, generation, state))
  {
    var d' := SettleRetirement(d, p, generation, state);
    if d' != d {
      if d.previews[p].retired {
        RowChangeKeepsLeases(d, p, d'.previews[p], d.next);
      } else {
        var d1, row := DropLease(d, p), d.previews[p].(state := state, retired := true, lease := 0);
        DropKeepsOthers(d, p);
        assert d' == d1.(previews := d1.previews[p := row]) && d1.previews == d.previews
          && d1.workspaces.Keys == d.workspaces.Keys;
        hide *;
        SettledLeases(d, d1, p, row);
      }
    }
  }

  // ----- every transaction ------------------------------------------------------------------------

  lemma PreviewTxKeepsPreviews(d: Db, tx: Tx)
    requires Linked(d) && PreviewRules(d) && IsPreviewTx(tx)
    ensures PreviewRules(ApplyPreview(d, tx))
    ensures LeaseRules(d)
            && (tx.ClaimPreviewTx? && CanClaimPreview(d, tx.p, tx.seen) ==> ClaimIsCurrent(d, tx.p, tx.seen)) ==>
      LeaseRules(ApplyPreview(d, tx))
  {
    if tx.CreatePreviewTx? || tx.DeletePreviewTx? {
      RecordKeeps(d, tx);
    } else if tx.StopAllPreviewsTx? {
      StopAllKeeps(d);
    } else if tx.ClaimPreviewTx? {
      ClaimKeepsPreviewRules(d, tx.p, tx.seen);
      if LeaseRules(d) && (CanClaimPreview(d, tx.p, tx.seen) ==> ClaimIsCurrent(d, tx.p, tx.seen)) {
        ClaimKeepsLeases(d, tx.p, tx.seen);
      }
    } else if tx.SettleRetirementTx? || tx.RecoverPreviewTx? {
      var state := if tx.SettleRetirementTx? then tx.outcome else Stopped;
      if Outcome(state) {
        SettlementKeepsRules(d, tx.p, tx.generation, state);
        if LeaseRules(d) { SettlementKeepsLeases(d, tx.p, tx.generation, state); }
      }
    } else {
      RowChangeKeeps(d, tx);
    }
  }

  // ----- a place taken, a lease lost ---------------------------------------------------------------

  /** Whatever copy a claim acted on, the workspace of a live preview holds its slot or its reader row. */
  ghost predicate Placed(d: Db) {
    forall p :: p in d.previews && !d.previews[p].retired ==> PlacedAt(d, p, d.previews[p].workspace)
  }

  predicate PlacedAt(d: Db, p: Id, w: Id) {
    && w in d.workspaces
    && (d.workspaces[w].writer == PreviewWriter(p) || (p in d.readers && d.readers[p].workspace == w))
  }

  /** A live preview whose lease is not where its row says. */
  predicate Lost(d: Db, p: Id) {
    p in d.previews && !d.previews[p].retired && d.previews[p].lease != 0 && !LeaseHeld(d, p)
  }

  lemma UntouchedPlaces(d: Db, d': Db)
    requires PreviewsUntouched(d, d') && Linked(d)
    ensures Placed(d) ==> Placed(d')
    ensures forall p :: Lost(d, p) ==> Lost(d', p)
  {
    forall p | Placed(d) && p in d'.previews && !d'.previews[p].retired
      ensures PlacedAt(d', p, d'.previews[p].workspace)
    {
      assert PlacedAt(d, p, d.previews[p].workspace);
    }
  }

  lemma ClaimKeepsPlaces(d: Db, p: Id, seen: Preview)
    requires Placed(d) && Linked(d)
    ensures Placed(ClaimPreview(d, p, seen))
  {
    hide GitPending, Usable, LivePreviews;
    var d' := ClaimPreview(d, p, seen);
    forall q | CanClaimPreview(d, p, seen) && q in d'.previews && !d'.previews[q].retired
      ensures PlacedAt(d', q, d'.previews[q].workspace)
    {
      if q != p { assert PlacedAt(d, q, d.previews[q].workspace); }
    }
  }

  lemma SettlementKeepsPlaces(d: Db, p: Id, generation: nat, state: PreviewState)
    requires Placed(d) && Linked(d) && Outcome(state)
    ensures Placed(SettleRetirement(d, p, generation, state))
  {
    var d' := SettleRetirement(d, p, generation, state);
    forall q | d' != d && q in d'.previews && !d'.previews[q].retired
      ensures PlacedAt(d', q, d'.previews[q].workspace)
    {
      assert q != p && PlacedAt(d, q, d.previews[q].workspace);
    }
  }

  lemma PreviewTxKeepsPlaces(d: Db, tx: Tx)
    requires Placed(d) && Linked(d) && IsPreviewTx(tx)
    ensures Placed(ApplyPreview(d, tx))
  {
    if tx.ClaimPreviewTx? {
      ClaimKeepsPlaces(d, tx.p, tx.seen);
    } else if tx.SettleRetirementTx? || tx.RecoverPreviewTx? {
      var state := if tx.SettleRetirementTx? then tx.outcome else Stopped;
      if Outcome(state) { SettlementKeepsPlaces(d, tx.p, tx.generation, state); }
    } else {
      RowTxShape(d, tx);
      hide ApplyPreview;
      var d' := ApplyPreview(d, tx);
      forall p | p in d'.previews && !d'.previews[p].retired
        ensures PlacedAt(d', p, d'.previews[p].workspace)
      {
        assert PlacedAt(d, p, d.previews[p].workspace);
      }
    }
  }

  lemma RowTxKeepsLoss(d: Db, tx: Tx, p: Id)
    requires PreviewRules(d) && Lost(d, p) && OnlyRow(tx)
    ensures Lost(ApplyPreview(d, tx), p)
  {
    hide ApplyPreview, PreviewRules;
    RowTxShape(d, tx);
    LiveRowsStay(d, tx, p);
  }

  /** Neither a claim nor a settlement nor a recovery brings a lost lease back or frees its row. */
  lemma MovesKeepLoss(d: Db, tx: Tx, p: Id)
    requires PreviewRules(d) && Lost(d, p) && IsPreviewTx(tx) && !OnlyRow(tx)
    ensures Lost(ApplyPreview(d, tx), p)
    ensures tx.p == p ==> ApplyPreview(d, tx) == d
  {
    hide GitPending, Usable, LivePreviews, ApplyPreview;
    if tx.ClaimPreviewTx? { ClaimKeepsLoss(d, tx, p); } else { RetirementKeepsLoss(d, tx, p); }
  }

  lemma ClaimKeepsLoss(d: Db, tx: Tx, p: Id)
    requires PreviewRules(d) && Lost(d, p) && tx.ClaimPreviewTx?
    ensures Lost(ApplyPreview(d, tx), p)
    ensures tx.p == p ==> ApplyPreview(d, tx) == d
  {
    hide GitPending, Usable, LivePreviews;
  }

  lemma RetirementKeepsLoss(d: Db, tx: Tx, p: Id)
    requires PreviewRules(d) && Lost(d, p) && (tx.SettleRetirementTx? || tx.RecoverPreviewTx?)
    ensures Lost(ApplyPreview(d, tx), p)
    ensures tx.p == p ==> ApplyPreview(d, tx) == d
  {
    hide LivePreviews;
  }

  lemma OthersKeepLoss(d: Db, tx: Tx, p: Id)
    requires FileRules(d) && Lost(d, p) && !IsPreviewTx(tx)
    ensures Lost(Apply(d, tx), p)
  {
    assert Linked(d);
    if IsFileTx(tx) { FileTxLeavesPreviews(d, tx); } else { OtherTxLeavesPreviews(d, tx); }
    hide ApplyFile, FileRules, Linked, Lost, PreviewsUntouched;
    UntouchedPlaces(d, Apply(d, tx));
  }

  lemma StepKeepsLoss(d: Db, tx: Tx, p: Id)
    requires FileRules(d) && PreviewRules(d) && Lost(d, p)
    ensures Lost(Apply(d, tx), p)
  {
    hide FileRules, PreviewRules, ApplyPreview, Lost;
    if IsPreviewTx(tx) {
      assert Apply(d, tx) == ApplyPreview(d, tx);
      if OnlyRow(tx) { RowTxKeepsLoss(d, tx, p); } else { MovesKeepLoss(d, tx, p); }
    } else {
      hide Apply;
      OthersKeepLoss(d, tx, p);
    }
  }

  /** Every transaction keeps the rules of files and previews, and the lease rules unless it is an
      admitted claim of a stale copy. */
  lemma EveryTxKeepsRules(d: Db, tx: Tx)
    requires FileRules(d) && PreviewRules(d) && Placed(d) && CallerKeeps(d, tx)
    ensures FileRules(Apply(d, tx)) && PreviewRules(Apply(d, tx)) && Placed(Apply(d, tx))
    ensures LeaseRules(d)
            && (tx.ClaimPreviewTx? && CanClaimPreview(d, tx.p, tx.seen) ==> ClaimIsCurrent(d, tx.p, tx.seen)) ==>
      LeaseRules(Apply(d, tx))
  {
    EveryTxKeepsFiles(d, tx);
    if IsPreviewTx(tx) {
      PreviewTxKeepsPreviews(d, tx);
      PreviewTxKeepsPlaces(d, tx);
    } else {
      if IsFileTx(tx) { FileTxLeavesPreviews(d, tx); } else { OtherTxLeavesPreviews(d, tx); }
      hide ApplyFile, ApplyPreview, PreviewsUntouched;
      UntouchedKeeps(d, Apply(d, tx));
      UntouchedPlaces(d, Apply(d, tx));
    }
  }

  // ----- runs ---------------------------------------------------------------------------------------

  /** A run in which the file supervisor keeps its side; previews are unconstrained. */
  ghost predicate Legal(txs: seq<Tx>)
    decreases |txs|
  {
    txs == [] || (Legal(txs[..|txs| - 1]) && CallerKeeps(After(txs[..|txs| - 1]), txs[|txs| - 1]))
  }

  function After(txs: seq<Tx>): (d: Db)
    decreases |txs|
  {
    if txs == [] then EMPTY else Apply(After(txs[..|txs| - 1]), txs[|txs| - 1])
  }

  /** Every admitted claim of the run acted on a current row. */
  ghost predicate ClaimsCurrent(txs: seq<Tx>) {
    forall i :: 0 <= i < |txs| && txs[i].ClaimPreviewTx? && CanClaimPreview(After(txs[..i]), txs[i].p, txs[i].seen) ==>
      ClaimIsCurrent(After(txs[..i]), txs[i].p, txs[i].seen)
  }

  lemma {:induction false} RunKeepsRules(txs: seq<Tx>)
    requires Legal(txs)
    ensures FileRules(After(txs)) && PreviewRules(After(txs)) && Placed(After(txs))
    ensures ClaimsCurrent(txs) ==> LeaseRules(After(txs))
    decreases |txs|
  {
    if txs == [] {
      assert LivePreviews(EMPTY) == {};
    } else {
      var n := |txs| - 1;
      var before := txs[..n];
      var d, tx := After(before), txs[n];
      RunKeepsRules(before);
      if ClaimsCurrent(txs) {
        forall i | 0 <= i < n ensures before[..i] == txs[..i] {}
        assert txs[..n] == before;
        assert ClaimsCurrent(before);
      }
      EveryTxKeepsRules(d, tx);
    }
  }

  /** A lost lease is lost for good: whatever runs afterwards, retirements and the administrator's
      recovery included, the row stays live with its lease elsewhere. */
  lemma {:induction false} LostForGood(txs: seq<Tx>, more: seq<Tx>, p: Id)
    requires Legal(txs + more) && Lost(After(txs), p)
    ensures Lost(After(txs + more), p)
    decreases |more|
  {
    hide Apply, Lost, FileRules, PreviewRules, Placed, LeaseRules, ClaimsCurrent, CallerKeeps;
    if more == [] {
      assert txs + more == txs;
    } else {
      var most := more[..|more| - 1];
      assert (txs + more)[..|txs + more| - 1] == txs + most;
      LostForGood(txs, most, p);
      RunKeepsRules(txs + most);
      StepKeepsLoss(After(txs + most), more[|more| - 1], p);
    }
  }

  lemma {:induction false} StaleClaimsLose(txs: seq<Tx>)
    requires Legal(txs) && !ClaimsCurrent(txs)
    ensures exists p :: Lost(After(txs), p)
    decreases |txs|
  {
    hide Apply, Lost, FileRules, PreviewRules, LeaseRules, Placed, CanClaimPreview, ClaimIsCurrent;
    var n := |txs| - 1;
    var before := txs[..n];
    RunKeepsRules(before);
    if ClaimsCurrent(before) {
      forall i | 0 <= i < n ensures before[..i] == txs[..i] && before[i] == txs[i] {}
      StaleClaimLoses(After(before), txs[n]);
      assert Lost(After(txs), txs[n].p);
    } else {
      StaleClaimsLose(before);
      var p :| Lost(After(before), p);
      StepKeepsLoss(After(before), txs[n], p);
      assert Lost(After(txs), p);
    }
  }

  lemma StaleClaimLoses(d: Db, tx: Tx)
    requires FileRules(d) && PreviewRules(d) && LeaseRules(d)
    requires tx.ClaimPreviewTx? && CanClaimPreview(d, tx.p, tx.seen) && !ClaimIsCurrent(d, tx.p, tx.seen)
    ensures Lost(Apply(d, tx), tx.p)
  {
    ClaimLeaseExact(d, tx.p, tx.seen);
    hide LeaseHeld, CanClaimPreview;
    assert Apply(d, tx) == ClaimPreview(d, tx.p, tx.seen);
  }

  /** Every live preview holds its lease, and no preview lease is orphaned, exactly in the runs whose
      admitted claims all acted on a current copy of their row. */
  lemma LeasesHoldExactly(txs: seq<Tx>)
    requires Legal(txs)
    ensures LeaseRules(After(txs)) <==> ClaimsCurrent(txs)
  {
    RunKeepsRules(txs);
    if !ClaimsCurrent(txs) {
      StaleClaimsLose(txs);
      var p :| Lost(After(txs), p);
      assert !LeaseHeld(After(txs), p);
    }
  }

  // ----- what a reader of the repository is promised ---------------------------------------------------

  /** The unresolved operation X is the only one in its project, its writer the only one, and nobody
      reads there. */
  ghost predicate HasProjectAlone(d: Db, x: Id) {
    x in d.files && d.files[x].workspace in d.workspaces &&
    var project := d.workspaces[d.files[x].workspace].project;
    && (forall y :: y in d.files && Unresolved(d.files[y]) && y != x ==>
          d.files[y].workspace in d.workspaces && d.workspaces[d.files[y].workspace].project != project)
    && (forall w :: w in d.workspaces && d.workspaces[w].project == project ==>
          d.workspaces[w].writer == if w == d.files[x].workspace then FileWriter(x) else Nobody)
    && !ProjectHasReader(d, project)
  }

  /** Cross-kind exclusion: over every interleaving of file, conversation and preview
      transactions, a pending stage, unstage or commit has its project to itself. */
  lemma GitOperationIsAlone(txs: seq<Tx>, x: Id)
    requires Legal(txs)
    requires x in After(txs).files && IsGit(After(txs).files[x]) && Unresolved(After(txs).files[x])
    ensures HasProjectAlone(After(txs), x)
  {
    RunKeepsRules(txs);
    var d := After(txs);
    var project := d.workspaces[d.files[x].workspace].project;
    assert OthersIdle(d, d.files[x].workspace, project) && NoReaders(d, project);
  }

  /** A live preview never shares its project with a pending Git operation, whatever copy its claim
      acted on. */
  lemma LivePreviewExcludesGit(txs: seq<Tx>, p: Id, x: Id)
    requires Legal(txs)
    requires p in After(txs).previews && !After(txs).previews[p].retired
    requires x in After(txs).files && IsGit(After(txs).files[x]) && Unresolved(After(txs).files[x])
    ensures var d := After(txs);
            && d.previews[p].workspace in d.workspaces && d.files[x].workspace in d.workspaces
            && d.workspaces[d.previews[p].workspace].project != d.workspaces[d.files[x].workspace].project
  {
    RunKeepsRules(txs);
    GitOperationIsAlone(txs, x);
    assert PlacedAt(After(txs), p, After(txs).previews[p].workspace);
  }

  /** Each start draws a generation above every generation, lease and epoch seen so far. */
  lemma StartIsFresh(txs: seq<Tx>, p: Id)
    requires Legal(txs) && CanStart(After(txs), p)
    ensures var d, d' := After(txs), StartPreview(After(txs), p);
            && p in d'.previews
            && (forall q :: q in d.previews ==> d.previews[q].generation < d'.previews[p].generation)
            && (forall w :: w in d.workspaces ==> d.workspaces[w].epoch < d'.previews[p].generation)
  {
    RunKeepsRules(txs);
  }

  /** The generation that a step carries: as its own guard, or in the row that the tick selected. */
  function GenerationOf(tx: Tx): (g: nat)
    requires CarriesGeneration(tx)
  {
    match tx
    case StopPreviewTx(_, g) => g
    case MarkReadyTx(_, g) => g
    case ForceStopTx(_, g) => g
    case SettleRetirementTx(_, g, _) => g
    case DoubtRetirementTx(_, g) => g
    case RecoverPreviewTx(_, g) => g
    case ClaimPreviewTx(_, seen) => seen.generation
    case FailWaitingTx(_, seen) => seen.generation
  }

  predicate CarriesGeneration(tx: Tx) {
    || tx.StopPreviewTx? || tx.MarkReadyTx? || tx.ForceStopTx? || tx.SettleRetirementTx? || tx.DoubtRetirementTx?
    || tx.RecoverPreviewTx? || tx.ClaimPreviewTx? || tx.FailWaitingTx?
  }

  /** The two steps of a tick that look at the state of the row and not at its generation. */
  predicate ActsOnNewStart(d: Db, tx: Tx) {
    || (tx.ClaimPreviewTx? && CanClaimPreview(d, tx.p, tx.seen))
    || (tx.FailWaitingTx? && tx.p in d.previews && d.previews[tx.p].state.Waiting?)
  }

  /** Once a preview has been started again, a step that still carries an earlier generation changes
      something, at any later moment of the run, exactly when it is a claim that is admitted or the
      failing of a row that waits. Identifiers of previews are not used again. */
  lemma {:induction false} OlderStepsExactly(txs: seq<Tx>, later: seq<Tx>, p: Id, tx: Tx)
    requires Legal(txs + later) && Legal(txs) && CanStart(After(txs), p)
    requires later != [] && later[0] == StartPreviewTx(p)
    requires CarriesGeneration(tx) && tx.p == p && GenerationOf(tx) <= After(txs).previews[p].generation
    requires forall i :: 0 <= i < |later| ==> !(later[i].CreatePreviewTx? && later[i].p == p)
    ensures Apply(After(txs + later), tx) != After(txs + later) <==> ActsOnNewStart(After(txs + later), tx)
  {
    GenerationStaysAbove(txs, later, p);
    var d := After(txs + later);
    if tx.ClaimPreviewTx? {
      if CanClaimPreview(d, p, tx.seen) { assert Apply(d, tx).previews[p].state.Starting?; }
    } else if tx.FailWaitingTx? {
      if p in d.previews && d.previews[p].state.Waiting? { assert Apply(d, tx).previews[p].state.Broken?; }
    } else {
      OlderIsIdle(d, tx);
    }
  }

  lemma OlderIsIdle(d: Db, tx: Tx)
    requires CarriesGeneration(tx) && !tx.ClaimPreviewTx? && !tx.FailWaitingTx?
    requires tx.p in d.previews ==> GenerationOf(tx) < d.previews[tx.p].generation
    ensures Apply(d, tx) == d
  {
  }

  lemma SequenceGrows(d: Db, tx: Tx)
    requires !IsPreviewTx(tx)
    ensures Apply(d, tx).previews == d.previews && d.next <= Apply(d, tx).next
  {
    if tx.SettleTx? {
      if tx.x in d.files && d.files[tx.x].workspace in d.workspaces && Settles(tx.state) {
        assert d.next <= Settle(d, tx.x, tx.state, tx.epoch).next;
      }
    } else if IsFileTx(tx) {
      assert d.next <= ApplyFile(d, tx).next;
    }
  }

  lemma StepKeepsGeneration(d: Db, tx: Tx, p: Id)
    requires !(tx.CreatePreviewTx? && tx.p == p)
    requires p in d.previews ==> d.previews[p].generation <= d.next
    ensures d.next <= Apply(d, tx).next
    ensures p in Apply(d, tx).previews ==>
              p in d.previews && d.previews[p].generation <= Apply(d, tx).previews[p].generation <= Apply(d, tx).next
  {
    hide ApplyPreview, ApplyFile;
    if IsPreviewTx(tx) {
      PreviewSequenceGrows(d, tx, p);
    } else {
      SequenceGrows(d, tx);
    }
  }

  lemma PreviewSequenceGrows(d: Db, tx: Tx, p: Id)
    requires IsPreviewTx(tx) && !(tx.CreatePreviewTx? && tx.p == p)
    requires p in d.previews ==> d.previews[p].generation <= d.next
    ensures d.next <= ApplyPreview(d, tx).next
    ensures p in ApplyPreview(d, tx).previews ==>
              p in d.previews && d.previews[p].generation <= ApplyPreview(d, tx).previews[p].generation
              && ApplyPreview(d, tx).previews[p].generation <= ApplyPreview(d, tx).next
  {
    hide Usable, GitPending, LivePreviews, ApplyPreview;
    if OnlyRow(tx) { RowSequenceGrows(d, tx, p); } else { MoveSequenceGrows(d, tx, p); }
  }

  lemma RowSequenceGrows(d: Db, tx: Tx, p: Id)
    requires OnlyRow(tx) && !(tx.CreatePreviewTx? && tx.p == p)
    requires p in d.previews ==> d.previews[p].generation <= d.next
    ensures d.next <= ApplyPreview(d, tx).next
    ensures p in ApplyPreview(d, tx).previews ==>
              p in d.previews && d.previews[p].generation <= ApplyPreview(d, tx).previews[p].generation
              && ApplyPreview(d, tx).previews[p].generation <= ApplyPreview(d, tx).next
  {
    hide Usable, GitPending, LivePreviews;
  }

  lemma MoveSequenceGrows(d: Db, tx: Tx, p: Id)
    requires tx.ClaimPreviewTx? || tx.SettleRetirementTx? || tx.RecoverPreviewTx?
    requires p in d.previews ==> d.previews[p].generation <= d.next
    ensures d.next <= ApplyPreview(d, tx).next
    ensures p in ApplyPreview(d, tx).previews ==>
              p in d.previews && d.previews[p].generation <= ApplyPreview(d, tx).previews[p].generation
              && ApplyPreview(d, tx).previews[p].generation <= ApplyPreview(d, tx).next
  {
    hide Usable, GitPending, LivePreviews;
  }

  lemma StartRaises(d: Db, p: Id)
    requires PreviewRules(d) && CanStart(d, p)
    ensures p in d.previews && p in Apply(d, StartPreviewTx(p)).previews
    ensures var d' := Apply(d, StartPreviewTx(p));
            d.previews[p].generation < d'.previews[p].generation <= d'.next
  {
  }

  lemma {:induction false} GenerationStaysAbove(txs: seq<Tx>, later: seq<Tx>, p: Id)
    requires Legal(txs) && CanStart(After(txs), p) && later != [] && later[0] == StartPreviewTx(p)
    requires forall i :: 0 <= i < |later| ==> !(later[i].CreatePreviewTx? && later[i].p == p)
    ensures p in After(txs).previews
    ensures p in After(txs + later).previews ==>
              After(txs).previews[p].generation < After(txs + later).previews[p].generation <= After(txs + later).next
    decreases |later|
  {
    hide Apply, CallerKeeps, PreviewRules;
    var n := |later| - 1;
    assert (txs + later)[..|txs + later| - 1] == txs + later[..n];
    if n == 0 {
      assert txs + later[..n] == txs;
      RunKeepsRules(txs);
      StartRaises(After(txs), p);
    } else {
      GenerationStaysAbove(txs, later[..n], p);
      StepKeepsGeneration(After(txs + later[..n]), later[n], p);
    }
  }

  // ----- a claim on a restarted row -----------------------------------------------------------------------

  lemma AfterOneMore(txs: seq<Tx>, tx: Tx)
    ensures After(txs + [tx]) == Apply(After(txs), tx)
  {
    assert (txs + [tx])[..|txs + [tx]| - 1] == txs;
  }

  const SELECTED := [AddWorkspace(1, 1), CreatePreviewTx(7, 1, true), StartPreviewTx(7)]
  const SEEN := Preview(1, true, Waiting, true, 0, 1)
  const RESTARTED := SELECTED + [StopPreviewTx(7, 1)] + [PatchPreviewTx(7, false)] + [StartPreviewTx(7)]

  lemma SelectedRow()
    ensures After(SELECTED) == EMPTY.(next := 1, workspaces := map[1 := Workspace(1, true, Nobody, 0)],
                                      previews := map[7 := SEEN])
  {
    AfterOneMore([], AddWorkspace(1, 1));
    AfterOneMore([AddWorkspace(1, 1)], CreatePreviewTx(7, 1, true));
    AfterOneMore([AddWorkspace(1, 1)] + [CreatePreviewTx(7, 1, true)], StartPreviewTx(7));
    assert [] + [AddWorkspace(1, 1)] == [AddWorkspace(1, 1)];
    assert SELECTED == [AddWorkspace(1, 1)] + [CreatePreviewTx(7, 1, true)] + [StartPreviewTx(7)];
  }

  lemma StoppedRow()
    ensures After(SELECTED + [StopPreviewTx(7, 1)]) ==
            EMPTY.(next := 1, workspaces := map[1 := Workspace(1, true, Nobody, 0)],
                   previews := map[7 := SEEN.(state := Stopped)])
  {
    SelectedRow();
    AfterOneMore(SELECTED, StopPreviewTx(7, 1));
    assert After(SELECTED + [StopPreviewTx(7, 1)]).previews == map[7 := SEEN.(state := Stopped)];
  }

  lemma RestartedRow()
    ensures After(RESTARTED) == EMPTY.(next := 2, workspaces := map[1 := Workspace(1, true, Nobody, 0)],
                                       previews := map[7 := Preview(1, false, Waiting, true, 0, 2)])
  {
    StoppedRow();
    var d4 := After(SELECTED + [StopPreviewTx(7, 1)]);
    AfterOneMore(SELECTED + [StopPreviewTx(7, 1)], PatchPreviewTx(7, false));
    var d5 := After(SELECTED + [StopPreviewTx(7, 1)] + [PatchPreviewTx(7, false)]);
    assert d5 == d4.(previews := map[7 := Preview(1, false, Stopped, true, 0, 1)]);
    AfterOneMore(SELECTED + [StopPreviewTx(7, 1)] + [PatchPreviewTx(7, false)], StartPreviewTx(7));
    assert After(RESTARTED) == d5.(next := 2, previews := map[7 := Preview(1, false, Waiting, true, 0, 2)]);
  }

  /** Between the tick's SELECT and the claim, the owner stops, edits to read-only and restarts:
      the claim takes the writer slot for a row that will look for a reader lease. */
  lemma StaleClaimLosesItsLease()
    ensures 7 in After(SELECTED).previews && After(SELECTED).previews[7] == SEEN
    ensures CanClaimPreview(After(RESTARTED), 7, SEEN)
    ensures var d := After(RESTARTED + [ClaimPreviewTx(7, SEEN)]);
            && 7 in d.previews && !d.previews[7].retired && !LeaseHeld(d, 7)
            && 1 in d.workspaces && d.workspaces[1].writer == PreviewWriter(7)
  {
    hide After, ClaimPreview, CanClaimPreview, Apply;
    SelectedRow();
    RestartedRow();
    AfterOneMore(RESTARTED, ClaimPreviewTx(7, SEEN));
    StaleClaim(After(RESTARTED));
  }

  lemma StaleClaim(d: Db)
    requires d == EMPTY.(next := 2, workspaces := map[1 := Workspace(1, true, Nobody, 0)],
                         previews := map[7 := Preview(1, false, Waiting, true, 0, 2)])
    ensures CanClaimPreview(d, 7, SEEN)
    ensures var d' := Apply(d, ClaimPreviewTx(7, SEEN));
            && 7 in d'.previews && !d'.previews[7].retired && !LeaseHeld(d', 7)
            && 1 in d'.workspaces && d'.workspaces[1].writer == PreviewWriter(7)
  {
    assert LivePreviews(d) == {};
  }

  /** Nor is the failing of a queued row guarded: the start that replaced the selected one fails. */
  lemma StaleFailureHitsNewStart()
    ensures 7 in After(RESTARTED).previews && After(RESTARTED).previews[7] == Preview(1, false, Waiting, true, 0, 2)
    ensures SEEN.generation == 1
    ensures var d := After(RESTARTED + [FailWaitingTx(7, SEEN)]);
            7 in d.previews && d.previews[7] == Preview(1, false, Broken, true, 0, 2)
  {
    RestartedRow();
    AfterOneMore(RESTARTED, FailWaitingTx(7, SEEN));
  }
}
