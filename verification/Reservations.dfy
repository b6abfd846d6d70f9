/** The database rows that share one writer slot per workspace, and the transactions that
    file operations, conversations and previews run on them. Each SQL transaction is one
    function from rows to rows; a refused or rolled-back transaction changes nothing. */
module Reservations {

  type Id = nat

  datatype Kind = Save | Stage | Unstage | Commit

  /** The slot that `synchronize_workspace_writer` keeps consistent: kind and owner together. */
  datatype Writer =
    | Nobody
    | FileWriter(id: Id)
    | Conversation(session: Id, generation: nat)
    | PreviewWriter(id: Id)

  datatype Workspace = Workspace(project: Id, ready: bool, writer: Writer, epoch: nat)

  datatype FileState = Queued | Dispatching | Succeeded | Failed | Uncertain

  datatype Inspection =
    | Uninspected
    | Requested(expected: nat)
    | Ready(fence: nat)
    | Unavailable(expected: nat)
    | Consumed

  /** `epoch` 0 stands for NULL. */
  datatype File = File(workspace: Id, kind: Kind, state: FileState, epoch: nat,
                       acknowledged: bool, inspection: Inspection)

  datatype Db = Db(
    next: nat,                       // last value of runtime_generation_seq
    archived: set<Id>,               // archived projects
    storage: set<Id>,                // projects with a queued or dispatching storage operation
    busy: set<Id>,                   // sessions with an active or unresolved turn
    workspaces: map<Id, Workspace>,
    files: map<Id, File>,
    previews: map<Id, Preview>,
    readers: map<Id, Reader>)

  datatype PreviewState =
    | Created | Waiting | Starting | Running | Stopping | Stopped | Exited | Broken | Unconfirmed

  /** `lease` 0 stands for NULL. */
  datatype Preview = Preview(workspace: Id, writes: bool, state: PreviewState, retired: bool,
                             lease: nat, generation: nat)

  datatype Reader = Reader(workspace: Id, epoch: nat, generation: nat)

  const EMPTY := Db(0, {}, {}, {}, map[], map[], map[], map[])

  // ----- the writer slot ------------------------------------------------------------

  predicate SameOwner(a: Writer, b: Writer) {
    match (a, b)
    case (Nobody, Nobody) => true
    case (FileWriter(x), FileWriter(y)) => x == y
    case (Conversation(x, _), Conversation(y, _)) => x == y
    case (PreviewWriter(x), PreviewWriter(y)) => x == y
    case _ => false
  }

  /** An UPDATE of the slot under the trigger: a new owner draws a fresh epoch. */
  function SetWriter(d: Db, w: Id, writer: Writer): (d': Db)
    requires w in d.workspaces
  {
    var row := d.workspaces[w];
    if writer.Nobody? || SameOwner(writer, row.writer) then
      d.(workspaces := d.workspaces[w := row.(writer := writer)])
    else
      d.(next := d.next + 1, workspaces := d.workspaces[w := row.(writer := writer, epoch := d.next + 1)])
  }

  predicate Usable(d: Db, w: Id) {
    w in d.workspaces && d.workspaces[w].ready && d.workspaces[w].project !in d.archived
  }

  predicate IsGit(f: File) {
    !f.kind.Save?
  }

  predicate Unresolved(f: File) {
    (f.state.Dispatching? || f.state.Uncertain?) && !f.acknowledged
  }

  /** An unacknowledged stage, unstage or commit is under way in the project. */
  predicate GitPending(d: Db, project: Id) {
    exists x :: x in d.files && IsGit(d.files[x]) && Unresolved(d.files[x])
             && d.files[x].workspace in d.workspaces && d.workspaces[d.files[x].workspace].project == project
  }

  predicate ProjectHasWriter(d: Db, project: Id) {
    exists w :: w in d.workspaces && d.workspaces[w].project == project && !d.workspaces[w].writer.Nobody?
  }

  predicate ProjectHasReader(d: Db, project: Id) {
    exists r :: r in d.readers && d.readers[r].workspace in d.workspaces
             && d.workspaces[d.readers[r].workspace].project == project
  }

  // ----- file operations ---------------------------------------------------------------

  predicate CanAccept(d: Db, x: Id, w: Id) {
    && x !in d.files && Usable(d, w)
    && !(exists y ::
           y in d.files && d.files[y].workspace == w && d.files[y].state.Uncertain? && !d.files[y].acknowledged)
  }

  function Accept(d: Db, x: Id, w: Id, kind: Kind): (d': Db) {
    if CanAccept(d, x, w) then d.(files := d.files[x := File(w, kind, Queued, 0, false, Uninspected)]) else d
  }

  /** The admission checks of the claim. The row's own state is not read again here. */
  predicate CanClaimFile(d: Db, x: Id) {
    && x in d.files && Usable(d, d.files[x].workspace)
    && d.workspaces[d.files[x].workspace].writer.Nobody?
    && var project := d.workspaces[d.files[x].workspace].project;
       && project !in d.storage
       && !GitPending(d, project)
       && (IsGit(d.files[x]) ==> !ProjectHasWriter(d, project) && !ProjectHasReader(d, project))
  }

  function ClaimFile(d: Db, x: Id): (d': Db)
    requires CanClaimFile(d, x)
  {
    var f := d.files[x];
    var d1 := SetWriter(d.(next := d.next + 1), f.workspace, FileWriter(x));
    if f.state.Queued? then
      d1.(files := d1.files[x := f.(state := Dispatching, epoch := d1.workspaces[f.workspace].epoch)])
    else d1
  }

  predicate Depends(d: Db, x: Id, y: Id)
    requires x in d.files && y in d.files
  {
    || d.files[y].workspace == d.files[x].workspace
    || (IsGit(d.files[x]) && IsGit(d.files[y])
        && d.files[x].workspace in d.workspaces && d.files[y].workspace in d.workspaces
        && d.workspaces[d.files[y].workspace].project == d.workspaces[d.files[x].workspace].project)
  }

  function FailDependents(d: Db, xs: set<Id>): (d': Db) {
    d.(files := map y | y in d.files ::
      if d.files[y].state.Queued? && exists x :: x in xs && x in d.files && Depends(d, x, y)
      then d.files[y].(state := Failed) else d.files[y])
  }

  /** `epoch` is the caller's copy of the row's epoch, 0 when it has none. */
  function Settle(d: Db, x: Id, state: FileState, epoch: nat): (d': Db)
    requires x in d.files && d.files[x].workspace in d.workspaces
    requires state.Succeeded? || state.Failed? || state.Uncertain?
  {
    var f := d.files[x];
    var w := d.workspaces[f.workspace];
    if w.writer == FileWriter(x) && epoch != 0 && w.epoch != epoch then d
    else if !f.state.Queued? && !f.state.Dispatching? then d
    else
      var d1 := d.(files := d.files[x := f.(state := state)]);
      if state.Uncertain? then FailDependents(d1, {x})
      else if w.writer == FileWriter(x) then SetWriter(d1, f.workspace, Nobody)
      else d1
  }

  /** `recoverFileStartup`, first transaction. */
  function RecoverStartup(d: Db): (d': Db) {
    var lost := set x | x in d.files && d.files[x].state.Dispatching?;
    FailDependents(
      d.(files := map y | y in d.files :: if y in lost then d.files[y].(state := Uncertain) else d.files[y]),
      lost)
  }

  predicate OwnsEpoch(d: Db, x: Id, epoch: nat) {
    && x in d.files && d.files[x].workspace in d.workspaces
    && d.workspaces[d.files[x].workspace].writer == FileWriter(x)
    && d.workspaces[d.files[x].workspace].epoch == epoch
  }

  function RequestInspection(d: Db, x: Id, epoch: nat): (d': Db) {
    if OwnsEpoch(d, x, epoch) && d.files[x].state.Uncertain?
       && (d.files[x].inspection.Uninspected? || d.files[x].inspection.Unavailable?)
    then d.(files := d.files[x := d.files[x].(inspection :=
           if d.files[x].inspection.Uninspected? then Requested(epoch) else Requested(d.files[x].inspection.expected))])
    else d
  }

  predicate CanInspect(d: Db, x: Id) {
    x in d.files && d.files[x].inspection.Requested? && OwnsEpoch(d, x, d.files[x].inspection.expected)
  }

  /** The inspection's commit: a new epoch fences every earlier view of the reservation. */
  function FinishInspection(d: Db, x: Id): (d': Db)
    requires x in d.files && d.files[x].workspace in d.workspaces
  {
    var f := d.files[x];
    d.(next := d.next + 1,
       workspaces := d.workspaces[f.workspace := d.workspaces[f.workspace].(epoch := d.next + 1)],
       files := d.files[x := f.(inspection := Ready(d.next + 1))])
  }

  function FailInspection(d: Db, x: Id): (d': Db) {
    if x in d.files && d.files[x].inspection.Requested?
    then d.(files := d.files[x := d.files[x].(inspection := Unavailable(d.files[x].inspection.expected))])
    else d
  }

  function ReleaseFile(d: Db, x: Id, epoch: nat): (d': Db) {
    if OwnsEpoch(d, x, epoch) && d.files[x].inspection == Ready(epoch) then
      var f := d.files[x];
      var f' := f.(acknowledged := f.acknowledged || f.state.Uncertain?, inspection := Consumed);
      SetWriter(d.(files := d.files[x := f']), f.workspace, Nobody)
    else d
  }

  // ----- conversations -------------------------------------------------------------------

  predicate CanClaimConversation(d: Db, w: Id) {
    && Usable(d, w)
    && !GitPending(d, d.workspaces[w].project)
    && d.workspaces[w].writer.Nobody?
    && d.workspaces[w].project !in d.storage
  }

  function ClaimConversation(d: Db, w: Id, session: Id, generation: nat): (d': Db) {
    if CanClaimConversation(d, w) then SetWriter(d, w, Conversation(session, generation)) else d
  }

  /** The dispatcher stores the generation of a runtime that it creates after admission. */
  function Regenerate(d: Db, w: Id, session: Id, generation: nat): (d': Db) {
    if w in d.workspaces && d.workspaces[w].writer.Conversation? && d.workspaces[w].writer.session == session
    then SetWriter(d, w, Conversation(session, generation)) else d
  }

  /** Compare-and-clear: only the exact session and generation gives the slot back. */
  function ReleaseConversation(d: Db, w: Id, session: Id, generation: nat): (d': Db) {
    if w in d.workspaces && d.workspaces[w].writer == Conversation(session, generation) && session !in d.busy
    then SetWriter(d, w, Nobody) else d
  }

  // ----- previews ----------------------------------------------------------------------------

  predicate Live(state: PreviewState) {
    state.Starting? || state.Running? || state.Stopping? || state.Unconfirmed?
  }

  function LivePreviews(d: Db): (s: set<Id>) {
    set p | p in d.previews && !d.previews[p].retired
  }

  function CreatePreview(d: Db, p: Id, w: Id, writes: bool): (d': Db) {
    if p !in d.previews && Usable(d, w) && |d.previews| < 128
    then d.(previews := d.previews[p := Preview(w, writes, Created, true, 0, 0)]) else d
  }

  function PatchPreview(d: Db, p: Id, writes: bool): (d': Db) {
    if p in d.previews && d.previews[p].retired && !d.previews[p].state.Waiting?
    then d.(previews := d.previews[p := d.previews[p].(writes := writes)]) else d
  }

  predicate CanStart(d: Db, p: Id) {
    && p in d.previews && d.previews[p].retired && !d.previews[p].state.Waiting?
    && Usable(d, d.previews[p].workspace)
    && !(exists q ::
           q in d.previews && d.previews[q].workspace == d.previews[p].workspace && d.previews[q].state.Waiting?)
  }

  function StartPreview(d: Db, p: Id): (d': Db) {
    if CanStart(d, p)
    then d.(next := d.next + 1, previews := d.previews[p := d.previews[p].(state := Waiting, generation := d.next + 1)])
    else d
  }

  function StopPreview(d: Db, p: Id, generation: nat): (d': Db) {
    if p in d.previews && d.previews[p].generation == generation && !d.previews[p].state.Stopping?
    then d.(previews := d.previews[p := d.previews[p].(state := if d.previews[p].retired then Stopped else Stopping)])
    else d
  }

  function DeletePreview(d: Db, p: Id): (d': Db) {
    if p in d.previews && d.previews[p].retired && !d.previews[p].state.Waiting? && p !in d.readers
    then d.(previews := d.previews - {p}) else d
  }

  /** First tick of a supervisor: nothing it finds alive is resumed. */
  function StopAllPreviews(d: Db): (d': Db) {
    d.(previews := map p | p in d.previews ::
      if !d.previews[p].retired && !d.previews[p].state.Unconfirmed?
      then d.previews[p].(state := Stopping) else d.previews[p])
  }

  /** Admission of a queued preview. `seen` is the row as the tick selected it, which the
      transaction uses for the profile and, for a reader lease, for the generation. */
  predicate CanClaimPreview(d: Db, p: Id, seen: Preview) {
    && p in d.previews && d.previews[p].state.Waiting?
    && Usable(d, d.previews[p].workspace)
    && var w := d.previews[p].workspace;
       && !(exists q :: q in d.previews && d.previews[q].workspace == w && !d.previews[q].retired)
       && (seen.writes ==> d.workspaces[w].writer.Nobody?)
       && d.workspaces[w].project !in d.storage
       && !GitPending(d, d.workspaces[w].project)
       && |LivePreviews(d)| < 4
       && (!seen.writes ==> p !in d.readers)
  }

  function ClaimPreview(d: Db, p: Id, seen: Preview): (d': Db) {
    if !CanClaimPreview(d, p, seen) then d
    else
      var w := d.previews[p].workspace;
      var d1 := if seen.writes then SetWriter(d, w, PreviewWriter(p))
                else d.(next := d.next + 1, readers := d.readers[p := Reader(w, d.next + 1, seen.generation)]);
      d1.(previews := d1.previews[p := d1.previews[p].(state := Starting, retired := false, lease := d1.next)])
  }

  /** `lease`: the row's own profile decides where its lease must be found. */
  predicate LeaseHeld(d: Db, p: Id) {
    && p in d.previews && d.previews[p].workspace in d.workspaces
    && var row := d.previews[p];
       if row.writes
       then d.workspaces[row.workspace].writer == PreviewWriter(p) && d.workspaces[row.workspace].epoch == row.lease
       else p in d.readers && d.readers[p] == Reader(row.workspace, row.lease, row.generation)
  }

  function MarkReady(d: Db, p: Id, generation: nat): (d': Db) {
    if LeaseHeld(d, p) && !d.previews[p].retired && d.previews[p].state.Starting?
       && d.previews[p].generation == generation && Usable(d, d.previews[p].workspace)
    then d.(previews := d.previews[p := d.previews[p].(state := Running)]) else d
  }

  /** A lost claim reply, an emergency, a deadline or a failed runtime. */
  function ForceStop(d: Db, p: Id, generation: nat): (d': Db) {
    if p in d.previews && d.previews[p].generation == generation
    then d.(previews := d.previews[p := d.previews[p].(state := if d.previews[p].retired then Stopped else Stopping)])
    else d
  }

  function DropLease(d: Db, p: Id): (d': Db)
    requires LeaseHeld(d, p)
  {
    if d.previews[p].writes then SetWriter(d, d.previews[p].workspace, Nobody)
    else d.(readers := d.readers - {p})
  }

  /** The settlement that follows confirmed absence of relay and runner. */
  function SettleRetirement(d: Db, p: Id, generation: nat, state: PreviewState): (d': Db)
    requires state.Stopped? || state.Exited? || state.Broken?
  {
    if p !in d.previews || d.previews[p].generation != generation then d
    else if d.previews[p].lease != 0 && !LeaseHeld(d, p) then d
    else
      var d1 := if d.previews[p].lease != 0 then DropLease(d, p) else d;
      d1.(previews := d1.previews[p := d1.previews[p].(state := state, retired := true, lease := 0)])
  }

  function DoubtRetirement(d: Db, p: Id, generation: nat): (d': Db) {
    if p in d.previews && d.previews[p].generation == generation && !d.previews[p].retired
    then d.(previews := d.previews[p := d.previews[p].(state := Unconfirmed)]) else d
  }

  function FailWaiting(d: Db, p: Id): (d': Db) {
    if p in d.previews && d.previews[p].state.Waiting?
    then d.(previews := d.previews[p := d.previews[p].(state := Broken)]) else d
  }

  /** The stopped-service recovery command settles like a retirement, on a live row only. */
  function RecoverPreview(d: Db, p: Id, generation: nat): (d': Db) {
    if p in d.previews && !d.previews[p].retired then SettleRetirement(d, p, generation, Stopped) else d
  }
}
