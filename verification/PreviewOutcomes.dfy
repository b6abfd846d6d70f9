/** What each step in the life of a preview leaves in its row and lease, and a whole life from creation
    to deletion (apps/supervisor/src/previews.ts, apps/api/src/previews.ts). */
module PreviewOutcomes {
  import opened Reservations
  import opened ReservationRules
  import opened PreviewLeases

  /** The row takes this value, and nothing else changes. */
  predicate Becomes(d: Db, d': Db, p: Id, row: Preview) {
    d' == d.(previews := d.previews[p := row])
  }

  /** A new preview is retired and has no lease; 128 rows are the most. */
  lemma CreationRecords(d: Db, p: Id, w: Id, writes: bool)
    ensures p !in d.previews && Usable(d, w) && |d.previews| < 128 ==>
              Becomes(d, CreatePreview(d, p, w, writes), p, Preview(w, writes, Created, true, 0, 0))
    ensures p in d.previews || !Usable(d, w) || |d.previews| >= 128 ==> CreatePreview(d, p, w, writes) == d
  {
  }

  /** Its profile may change and its row may be deleted while it is retired and no start is waiting. */
  lemma RetiredIsEditable(d: Db, p: Id, writes: bool)
    requires p in d.previews && d.previews[p].retired && !d.previews[p].state.Waiting?
    ensures Becomes(d, PatchPreview(d, p, writes), p, d.previews[p].(writes := writes))
    ensures p !in d.readers ==> DeletePreview(d, p) == d.(previews := d.previews - {p})
    ensures p in d.readers ==> DeletePreview(d, p) == d
  {
  }

  /** A start waits under a generation drawn for it. */
  lemma StartWaits(d: Db, p: Id)
    ensures CanStart(d, p) ==>
              StartPreview(d, p) == d.(next := d.next + 1,
                                       previews := d.previews[p := d.previews[p].(state := Waiting,
                                                                                  generation := d.next + 1)])
    ensures !CanStart(d, p) ==> StartPreview(d, p) == d
  {
  }

  /** A start is taken exactly when the row is retired and not waiting, its workspace can be used and no
      other start waits there. */
  lemma StartExactly(d: Db, p: Id)
    requires p in d.previews
    ensures var w := d.previews[p].workspace;
            CanStart(d, p) <==>
              && d.previews[p].retired && !d.previews[p].state.Waiting?
              && w in d.workspaces && d.workspaces[w].ready && d.workspaces[w].project !in d.archived
              && forall q :: q in d.previews && d.previews[q].workspace == w ==> !d.previews[q].state.Waiting?
  {
  }

  /** A waiting start is admitted exactly when its workspace can be used and has no live preview, the
      project is neither busy with storage nor has a Git operation under way, fewer than four previews
      live, and the slot, or the reader's entry, is free. */
  lemma AdmissionExactly(d: Db, p: Id, seen: Preview)
    requires p in d.previews && d.previews[p].workspace in d.workspaces
    ensures var row := d.workspaces[d.previews[p].workspace];
            CanClaimPreview(d, p, seen) <==>
              && d.previews[p].state.Waiting? && row.ready && row.project !in d.archived && row.project !in d.storage
              && (forall q :: q in d.previews && d.previews[q].workspace == d.previews[p].workspace ==>
                    d.previews[q].retired)
              && !GitPending(d, row.project)
              && |set q | q in d.previews && !d.previews[q].retired| <= 3
              && if seen.writes then row.writer.Nobody? else p !in d.readers
  {
    hide GitPending;
    assert LivePreviews(d) == set q | q in d.previews && !d.previews[q].retired;
  }

  /** A waiting start can fail or be stopped, and then it never had a lease. */
  lemma WaitingEnds(d: Db, p: Id)
    requires p in d.previews && d.previews[p].state.Waiting? && d.previews[p].retired
    ensures Becomes(d, FailWaiting(d, p), p, d.previews[p].(state := Broken))
    ensures Becomes(d, StopPreview(d, p, d.previews[p].generation), p, d.previews[p].(state := Stopped))
    ensures Becomes(d, ForceStop(d, p, d.previews[p].generation), p, d.previews[p].(state := Stopped))
  {
  }

  /** An admitted start is live under a fresh lease: the writer's is the epoch of its slot, the reader's
      its own. */
  lemma AdmissionLeases(d: Db, p: Id, seen: Preview)
    requires CanClaimPreview(d, p, seen)
    ensures var d', row, w := ClaimPreview(d, p, seen), d.previews[p], d.previews[p].workspace;
            && d' == d.(next := d.next + 1, previews := d'.previews, workspaces := d'.workspaces, readers := d'.readers)
            && d'.previews == d.previews[p := row.(state := Starting, retired := false, lease := d.next + 1)]
            && (seen.writes ==>
                  && d'.readers == d.readers
                  && d'.workspaces
                     == d.workspaces[w := d.workspaces[w].(writer := PreviewWriter(p), epoch := d.next + 1)])
            && (!seen.writes ==>
                  && d'.workspaces == d.workspaces
                  && d'.readers == d.readers[p := Reader(w, d.next + 1, seen.generation)])
  {
    hide GitPending, LivePreviews, ProjectHasWriter;
  }

  /** A live preview under its own generation, with its lease in place. */
  predicate LivesUnder(d: Db, p: Id, generation: nat) {
    p in d.previews && !d.previews[p].retired && d.previews[p].generation == generation
  }

  /** What may happen to a live row: it runs, exactly from starting and with lease and workspace in order;
      it is stopped; its retirement is in doubt; and neither of these touches the lease. */
  lemma LiveRowTurns(d: Db, p: Id, generation: nat)
    requires LivesUnder(d, p, generation)
    ensures d.previews[p].state.Starting? && LeaseHeld(d, p) && Usable(d, d.previews[p].workspace) ==>
              Becomes(d, MarkReady(d, p, generation), p, d.previews[p].(state := Running))
    ensures !(d.previews[p].state.Starting? && LeaseHeld(d, p) && Usable(d, d.previews[p].workspace)) ==>
              MarkReady(d, p, generation) == d
    ensures Becomes(d, ForceStop(d, p, generation), p, d.previews[p].(state := Stopping))
    ensures Becomes(d, StopPreview(d, p, generation), p, d.previews[p].(state := Stopping))
    ensures Becomes(d, DoubtRetirement(d, p, generation), p, d.previews[p].(state := Unconfirmed))
  {
    assert d.previews == d.previews[p := d.previews[p]];
  }

  /** A step for another generation finds nothing to do. */
  lemma OtherGenerations(d: Db, p: Id, generation: nat, state: PreviewState)
    requires p in d.previews ==> d.previews[p].generation != generation
    requires Outcome(state)
    ensures MarkReady(d, p, generation) == d && ForceStop(d, p, generation) == d
    ensures StopPreview(d, p, generation) == d && DoubtRetirement(d, p, generation) == d
    ensures SettleRetirement(d, p, generation, state) == d && RecoverPreview(d, p, generation) == d
  {
  }

  /** The settlement of a confirmed retirement: a live row with its lease in place becomes a retired one in
      that state, and the lease is given up, the writer's slot or the reader's entry, with the epoch left
      as it is. Without the lease in place nothing is settled. */
  lemma RetirementSettles(d: Db, p: Id, generation: nat, state: PreviewState)
    requires LivesUnder(d, p, generation) && d.previews[p].lease != 0 && Outcome(state)
    ensures !LeaseHeld(d, p) ==> SettleRetirement(d, p, generation, state) == d
    ensures LeaseHeld(d, p) ==>
              var d', row, w := SettleRetirement(d, p, generation, state), d.previews[p], d.previews[p].workspace;
              && d' == d.(previews := d'.previews, workspaces := d'.workspaces, readers := d'.readers)
              && d'.previews == d.previews[p := row.(state := state, retired := true, lease := 0)]
              && d'.workspaces == (if row.writes then d.workspaces[w := d.workspaces[w].(writer := Nobody)]
                                   else d.workspaces)
              && d'.readers == (if row.writes then d.readers else d.readers - {p})
    ensures RecoverPreview(d, p, generation) == SettleRetirement(d, p, generation, Stopped)
  {
    hide GitPending, LivePreviews;
    var w := d.previews[p].workspace;
    if w in d.workspaces { assert d.workspaces == d.workspaces[w := d.workspaces[w]]; }
  }

  /** A retired row has nothing to give up: it only takes the state, and an operator's recovery leaves it. */
  lemma RetiredSettles(d: Db, p: Id, state: PreviewState)
    requires p in d.previews && d.previews[p].retired && d.previews[p].lease == 0 && Outcome(state)
    ensures Becomes(d, SettleRetirement(d, p, d.previews[p].generation, state), p, d.previews[p].(state := state))
    ensures RecoverPreview(d, p, d.previews[p].generation) == d
    ensures DoubtRetirement(d, p, d.previews[p].generation) == d
  {
  }

  /** And what is live or waiting can neither be edited nor deleted, and only what is waiting can fail. */
  lemma LiveIsNotEdited(d: Db, p: Id, writes: bool)
    ensures p !in d.previews || !d.previews[p].retired || d.previews[p].state.Waiting? ==>
              PatchPreview(d, p, writes) == d && DeletePreview(d, p) == d
    ensures p !in d.previews || !d.previews[p].state.Waiting? ==> FailWaiting(d, p) == d
  {
  }

  /** There is a place for a new preview in the workspace. */
  predicate HasPlace(d: Db, p: Id, w: Id, writes: bool) {
    && p !in d.previews && p !in d.readers && |d.previews| < 128 && Usable(d, w)
    && (forall q :: q in d.previews && d.previews[q].workspace == w ==>
          d.previews[q].retired && !d.previews[q].state.Waiting?)
    && d.workspaces[w].project !in d.storage && !GitPending(d, d.workspaces[w].project)
    && |LivePreviews(d)| < 4 && (writes ==> d.workspaces[w].writer.Nobody?)
  }

  /** From nothing to a start that is waiting and can be admitted. */
  lemma LifeBegins(d: Db, p: Id, w: Id, first: bool, writes: bool) returns (d': Db)
    requires HasPlace(d, p, w, writes)
    ensures d' == StartPreview(PatchPreview(CreatePreview(d, p, w, first), p, writes), p)
    ensures d' == d.(next := d.next + 1,
                     previews := d.previews[p := Preview(w, writes, Waiting, true, 0, d.next + 1)])
    ensures CanClaimPreview(d', p, d'.previews[p])
  {
    hide GitPending, LivePreviews, CreatePreview, PatchPreview, StartPreview, CanClaimPreview;
    var d2 := PatchPreview(CreatePreview(d, p, w, first), p, writes);
    RowIsPlaced(d, p, w, first, writes);
    StartIsPossible(d, d2, p, w, writes);
    StartWaits(d2, p);
    d' := StartPreview(d2, p);
    assert d'.previews == d.previews[p := Preview(w, writes, Waiting, true, 0, d.next + 1)];
    StartIsAdmissible(d, d', p, w, writes);
  }

  lemma RowIsPlaced(d: Db, p: Id, w: Id, first: bool, writes: bool)
    requires HasPlace(d, p, w, writes)
    ensures Becomes(d, PatchPreview(CreatePreview(d, p, w, first), p, writes), p,
                    Preview(w, writes, Created, true, 0, 0))
  {
    hide GitPending, LivePreviews, CreatePreview, PatchPreview;
    var d1 := CreatePreview(d, p, w, first);
    CreationRecords(d, p, w, first);
    RetiredIsEditable(d1, p, writes);
    assert d1.previews[p := Preview(w, writes, Created, true, 0, 0)]
           == d.previews[p := Preview(w, writes, Created, true, 0, 0)];
  }

  lemma StartIsPossible(d: Db, d2: Db, p: Id, w: Id, writes: bool)
    requires HasPlace(d, p, w, writes) && Becomes(d, d2, p, Preview(w, writes, Created, true, 0, 0))
    ensures CanStart(d2, p)
  {
    hide GitPending, LivePreviews;
  }

  lemma StartIsAdmissible(d: Db, d': Db, p: Id, w: Id, writes: bool)
    requires HasPlace(d, p, w, writes)
    requires d' == d.(next := d.next + 1,
                      previews := d.previews[p := Preview(w, writes, Waiting, true, 0, d.next + 1)])
    ensures CanClaimPreview(d', p, d'.previews[p])
  {
    hide GitPending;
    PendingStays(d, d', d.workspaces[w].project);
    assert LivePreviews(d') == LivePreviews(d);
  }

  lemma PendingStays(d: Db, d': Db, project: Id)
    requires d'.files == d.files && d'.workspaces == d.workspaces
    ensures GitPending(d', project) == GitPending(d, project)
  {
  }

  /** From there it is admitted, runs under its lease, is stopped and retired, and everything it had is
      given back: only its retired row is left, and then not even that. */
  lemma LifeEnds(d: Db, p: Id, state: PreviewState)
    requires p in d.previews && CanClaimPreview(d, p, d.previews[p]) && Outcome(state)
    requires d.previews[p].writes ==> p !in d.readers
    ensures var row, w := d.previews[p], d.previews[p].workspace;
            var running := MarkReady(ClaimPreview(d, p, row), p, row.generation);
            var ended := SettleRetirement(StopPreview(running, p, row.generation), p, row.generation, state);
            && p in running.previews
            && running.previews[p] == row.(state := Running, retired := false, lease := d.next + 1)
            && LeaseHeld(running, p)
            && ended.previews == d.previews[p := row.(state := state, retired := true, lease := 0)]
            && ended.readers == d.readers && ended.files == d.files
            && w in d.workspaces && ended.workspaces
               == d.workspaces[w := if row.writes then d.workspaces[w].(writer := Nobody, epoch := d.next + 1)
                                    else d.workspaces[w]]
            && DeletePreview(ended, p).previews == d.previews - {p}
  {
    hide GitPending, LivePreviews, MarkReady, ClaimPreview, SettleRetirement, StopPreview, DeletePreview;
    var row, w := d.previews[p], d.previews[p].workspace;
    var claimed := ClaimPreview(d, p, row);
    AdmissionLeases(d, p, row);
    LiveRowTurns(claimed, p, row.generation);
    var running := MarkReady(claimed, p, row.generation);
    LiveRowTurns(running, p, row.generation);
    var stopped := StopPreview(running, p, row.generation);
    RetirementSettles(stopped, p, row.generation, state);
    var ended := SettleRetirement(stopped, p, row.generation, state);
    assert ended.readers == d.readers;
    assert ended.previews == d.previews[p := row.(state := state, retired := true, lease := 0)];
    assert ended.workspaces
           == d.workspaces[w := if row.writes then d.workspaces[w].(writer := Nobody, epoch := d.next + 1)
                                else d.workspaces[w]];
    RetiredIsEditable(ended, p, row.writes);
    assert ended.previews - {p} == d.previews - {p};
  }
}
