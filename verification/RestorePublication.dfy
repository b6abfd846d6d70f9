/** `_publish` of infra/deploy/publish.py: each project's prepared directory moves from its pool
    slot to a claim, is emptied and filled there, and moves to its target. A journal makes every
    crash resumable; a power loss may also undo what was not flushed. */
module RestorePublication {
  import opened Sets
  import opened RestoreCopy

  /** Slots are numbered in the order in which their pool is listed. */
  datatype Place = Slot(root: nat, number: nat) | Claim(project: nat) | Target(project: nat)

  datatype Dir = Dir(inode: nat, content: Content)

  type Files = map<Place, Dir>

  datatype Plan = Plan(slot: nat, inode: nat, published: bool)

  datatype Phase =
    | Planning
    | Claiming
    | FlushingClaim
    | Inspecting
    | Emptying
    | Copying(k: nat)
    | Settling              // flush the copy
    | Moving
    | FlushingTarget
    | Comparing
    | Sealing               // flush once more
    | Recording

  /** An error ends a run like a crash does. */
  datatype Pc = Idle | At(i: nat, phase: Phase) | Finished

  datatype State = State(
    files: Files,
    past: set<Files>,       // what the file systems have been since the last flush
    journal: map<nat, Plan>,
    pc: Pc)

  datatype Event =
    | Start
    | Move(kept: set<Path>, slot: Option<nat>)
    | Crash
    | PowerLoss(survivor: Files)

  function Initial(files: Files): (s: State) { State(files, {files}, map[], Idle) }

  predicate EmptySlot(content: Content) {
    && content.Keys == {["workspace"], ["native"]}
    && content[["workspace"]].item.Directory? && content[["native"]].item.Directory?
    && content[["workspace"]].uid == RUNNER && content[["native"]].uid == 0
    && content[["workspace"]].mode / 64 % 8 == 7 && content[["native"]].mode / 64 % 8 == 7
  }

  predicate FirstSlot(files: Files, root: nat, slot: Option<nat>) {
    match slot
    case None => forall p :: p in files ==> !(p.Slot? && p.root == root)
    case Some(n) => Slot(root, n) in files && forall p :: p in files && p.Slot? && p.root == root ==> n <= p.number
  }

  function Rename(files: Files, a: Place, b: Place): (r: Files)
    requires a in files
  {
    (map p | p in files && p != a :: files[p])[b := files[a]]
  }

  function Fill(files: Files, p: Place, content: Content): (r: Files)
    requires p in files
  {
    files[p := Dir(files[p].inode, content)]
  }

  /** A slot is empty and prepared when it holds two directories and nothing else: the runner's `workspace`
      and root's `native`, each of which its owner may enter, read and write. */
  lemma EmptySlotExactly(content: Content)
    ensures EmptySlot(content) <==>
              && content.Keys == {["workspace"], ["native"]}
              && forall p :: p in content ==>
                   && content[p].item.Directory? && content[p].mode / 64 % 8 == 7
                   && content[p].uid == if p == ["native"] then 0 else RUNNER
  {
    assert ["workspace"] != ["native"] by { assert ["workspace"][0] == "workspace" && ["native"][0] == "native"; }
  }

  // ----- one step ------------------------------------------------------------------------------

  function To(s: State, i: nat, phase: Phase): (s': State) { s.(pc := At(i, phase)) }

  function Put(s: State, files: Files): (s': State) { s.(files := files, past := s.past + {files}) }

  function Flush(s: State): (s': State) { s.(past := {s.files}) }

  function Planned(units: seq<Unit>, s: State, i: nat, slot: Option<nat>): (s': State)
    requires i < |units|
  {
    if i in s.journal then To(s, i, Claiming)
    else if Target(i) in s.files || slot.None? then s.(pc := Idle)
    else
      var place := Slot(units[i].root, slot.value);
      if place !in s.files || !EmptySlot(s.files[place].content) || Claim(i) in s.files then s.(pc := Idle)
      else To(s.(journal := s.journal[i := Plan(slot.value, s.files[place].inode, false)]), i, Claiming)
  }

  function Claimed(units: seq<Unit>, s: State, i: nat): (s': State)
    requires i < |units| && i in s.journal
  {
    var plan := s.journal[i];
    var place := Slot(units[i].root, plan.slot);
    if Target(i) in s.files || Claim(i) in s.files then To(s, i, Inspecting)
    else if place in s.files && s.files[place].inode == plan.inode && EmptySlot(s.files[place].content) then
      To(Put(s, Rename(s.files, place, Claim(i))), i, FlushingClaim)
    else s.(pc := Idle)
  }

  function Inspected(s: State, i: nat): (s': State)
    requires i in s.journal
  {
    var current := if Target(i) in s.files then Target(i) else Claim(i);
    if current !in s.files || s.files[current].inode != s.journal[i].inode then s.(pc := Idle)
    else To(s, i, if s.journal[i].published || current.Target? then Comparing else Emptying)
  }

  function CopyNext(u: Unit, s: State, i: nat, k: nat): (s': State)
    requires Claim(i) in s.files && Listed(u)
  {
    if k >= |u.order| then To(s, i, Settling)
    else
      var next := CopyOne(u, s.files[Claim(i)].content, u.order[k]);
      if next.None? then s.(pc := Idle)
      else To(Put(s, Fill(s.files, Claim(i), next.value)), i, Copying(k + 1))
  }

  predicate Movable(units: seq<Unit>, s: State) {
    && s.pc.At? && s.pc.i < |units|
    && (!s.pc.phase.Planning? ==> s.pc.i in s.journal)
    && (s.pc.phase.Emptying? || s.pc.phase.Copying? || s.pc.phase.Moving? ==> Claim(s.pc.i) in s.files)
    && (s.pc.phase.Comparing? ==> Target(s.pc.i) in s.files)
  }

  function Advance(units: seq<Unit>, s: State, kept: set<Path>, slot: Option<nat>): (s': State)
    requires Movable(units, s) && forall u :: u in units ==> Listed(u)
  {
    var i := s.pc.i;
    match s.pc.phase
    case Planning => Planned(units, s, i, slot)
    case Claiming => Claimed(units, s, i)
    case FlushingClaim => To(Flush(s), i, Inspecting)
    case Inspecting => Inspected(s, i)
    case Emptying =>
      var content := s.files[Claim(i)].content;
      if content == map[] then To(s, i, Copying(0))
      else Put(s, Fill(s.files, Claim(i), map p | p in content && p in kept :: content[p]))
    case Copying(k) => CopyNext(units[i], s, i, k)
    case Settling => To(Flush(s), i, Moving)
    case Moving => To(Put(s, Rename(s.files, Claim(i), Target(i))), i, FlushingTarget)
    case FlushingTarget => To(Flush(s), i, Comparing)
    case Comparing => if Holds(units[i], s.files[Target(i)].content) then To(s, i, Sealing) else s.(pc := Idle)
    case Sealing => To(Flush(s), i, Recording)
    case Recording =>
      s.(journal := s.journal[i := s.journal[i].(published := true)],
         pc := if i + 1 < |units| then At(i + 1, Planning) else Finished)
  }

  ghost predicate Enabled(units: seq<Unit>, s: State, e: Event) {
    match e
    case Start => s.pc.Idle?
    case Move(_, slot) =>
      Movable(units, s) && (s.pc.phase.Planning? ==> FirstSlot(s.files, units[s.pc.i].root, slot))
    case Crash => true
    case PowerLoss(survivor) => survivor in s.past
  }

  function Do(units: seq<Unit>, s: State, e: Event): (s': State)
    requires Enabled(units, s, e) && forall u :: u in units ==> Listed(u)
  {
    match e
    case Start => s.(pc := if |units| == 0 then Finished else At(0, Planning))
    case Move(kept, slot) => Advance(units, s, kept, slot)
    case Crash => s.(pc := Idle)
    case PowerLoss(survivor) => s.(files := survivor, past := {survivor}, pc := Idle)
  }

  ghost function Step(units: seq<Unit>, s: State, e: Event): (s': State)
    requires forall u :: u in units ==> Listed(u)
  {
    if Enabled(units, s, e) then Do(units, s, e) else s
  }

  ghost function Run(units: seq<Unit>, start: Files, es: seq<Event>): (s: State)
    requires forall u :: u in units ==> Listed(u)
    decreases |es|
  {
    if es == [] then Initial(start) else Step(units, Run(units, start, es[..|es| - 1]), es[|es| - 1])
  }

  // ----- where a planned directory is ---------------------------------------------------------------

  predicate AtSlot(u: Unit, f: Files, i: nat, plan: Plan) {
    && Slot(u.root, plan.slot) in f && f[Slot(u.root, plan.slot)].inode == plan.inode
    && EmptySlot(f[Slot(u.root, plan.slot)].content)
    && Claim(i) !in f && Target(i) !in f
  }

  predicate AtClaim(u: Unit, f: Files, i: nat, plan: Plan) {
    && Claim(i) in f && f[Claim(i)].inode == plan.inode
    && Slot(u.root, plan.slot) !in f && Target(i) !in f
  }

  predicate Whole(u: Unit, content: Content) {
    Listed(u) && CopyUpTo(u, |u.order|) == Some(content)
  }

  predicate AtTarget(u: Unit, f: Files, i: nat, plan: Plan) {
    && Target(i) in f && f[Target(i)].inode == plan.inode && Whole(u, f[Target(i)].content)
    && Slot(u.root, plan.slot) !in f && Claim(i) !in f
  }

  predicate Placed(u: Unit, f: Files, i: nat, plan: Plan) {
    if plan.published then AtTarget(u, f, i, plan) && Holds(u, f[Target(i)].content)
    else AtSlot(u, f, i, plan) || AtClaim(u, f, i, plan) || AtTarget(u, f, i, plan)
  }

  predicate Distinct(f: Files) {
    forall p, q :: p in f && q in f && p != q ==> f[p].inode != f[q].inode
  }

  /** A place that some plan may change. */
  predicate Ours(units: seq<Unit>, journal: map<nat, Plan>, p: Place) {
    match p
    case Slot(root, n) => exists i :: i in journal && i < |units| && units[i].root == root && journal[i].slot == n
    case Claim(i) => i in journal
    case Target(i) => i in journal
  }

  /** Everything else is as it was at the start. */
  ghost predicate Untouched(units: seq<Unit>, start: Files, f: Files, journal: map<nat, Plan>) {
    && (forall p :: p in start && !Ours(units, journal, p) ==> p in f && f[p] == start[p])
    && (forall p :: p in f && !Ours(units, journal, p) ==> p in start)
  }

  ghost predicate FilesOk(units: seq<Unit>, start: Files, f: Files, journal: map<nat, Plan>) {
    && Distinct(f)
    && Untouched(units, start, f, journal)
    && forall i :: i in journal && i < |units| ==> Placed(units[i], f, i, journal[i])
  }

  /** Projects are published in order: the ones before the last planned one are done. */
  predicate InOrder(units: seq<Unit>, journal: map<nat, Plan>) {
    && (forall i :: i in journal ==> i < |units|)
    && (forall i, j :: i in journal && 0 <= j < i ==> j in journal && journal[j].published)
  }

  predicate PcOk(units: seq<Unit>, s: State) {
    match s.pc
    case Idle => true
    case Finished =>
      s.past == {s.files} && forall i :: 0 <= i < |units| ==> i in s.journal && s.journal[i].published
    case At(i, phase) =>
      && i < |units|
      && (forall j :: 0 <= j < i ==> j in s.journal && s.journal[j].published)
      && (phase.Planning? ==> i !in s.journal ==> s.past == {s.files})
      && (!phase.Planning? ==> i in s.journal && PhaseOk(units[i], s, i, s.journal[i], phase))
  }

  predicate PhaseOk(u: Unit, s: State, i: nat, plan: Plan, phase: Phase) {
    match phase
    case Planning => true
    case Claiming => true
    case FlushingClaim => AtClaim(u, s.files, i, plan) && !plan.published
    case Inspecting => AtClaim(u, s.files, i, plan) || AtTarget(u, s.files, i, plan)
    case Emptying => AtClaim(u, s.files, i, plan) && !plan.published
    case Copying(k) =>
      && AtClaim(u, s.files, i, plan) && !plan.published
      && Listed(u) && k <= |u.order| && CopyUpTo(u, k) == Some(s.files[Claim(i)].content)
    case Settling => AtClaim(u, s.files, i, plan) && !plan.published && Whole(u, s.files[Claim(i)].content)
    case Moving => AtClaim(u, s.files, i, plan) && !plan.published && Whole(u, s.files[Claim(i)].content)
    case FlushingTarget => AtTarget(u, s.files, i, plan)
    case Comparing => AtTarget(u, s.files, i, plan)
    case Sealing => AtTarget(u, s.files, i, plan) && Holds(u, s.files[Target(i)].content)
    case Recording => AtTarget(u, s.files, i, plan) && Holds(u, s.files[Target(i)].content) && s.past == {s.files}
  }

  ghost predicate Safe(units: seq<Unit>, start: Files, s: State) {
    && s.files in s.past
    && InOrder(units, s.journal)
    && (s.journal == map[] ==> s.past == {s.files})
    && forall f :: f in s.past ==> FilesOk(units, start, f, s.journal)
  }

  ghost predicate Inv(units: seq<Unit>, start: Files, s: State) {
    Safe(units, start, s) && PcOk(units, s)
  }

  ghost predicate World(units: seq<Unit>, start: Files) {
    Distinct(start) && forall u :: u in units ==> Listed(u)
  }

  // ----- what each kind of step keeps ------------------------------------------------------------------

  lemma RenameKeepsFiles(units: seq<Unit>, start: Files, f: Files, journal: map<nat, Plan>, i: nat, a: Place, b: Place)
    requires InOrder(units, journal) && FilesOk(units, start, f, journal) && i in journal && !journal[i].published
    requires a in f && b !in f && f[a].inode == journal[i].inode
    requires a == Slot(units[i].root, journal[i].slot) || a == Claim(i)
    requires b == Claim(i) || b == Target(i)
    requires Placed(units[i], Rename(f, a, b), i, journal[i])
    ensures FilesOk(units, start, Rename(f, a, b), journal)
  {
    var g := Rename(f, a, b);
    assert Ours(units, journal, a) && Ours(units, journal, b);
    forall j | j in journal && j != i
      ensures Placed(units[j], g, j, journal[j])
    {
      assert Placed(units[j], f, j, journal[j]);
    }
  }

  lemma FillKeepsFiles(units: seq<Unit>, start: Files, f: Files, journal: map<nat, Plan>, i: nat, content: Content)
    requires InOrder(units, journal) && FilesOk(units, start, f, journal) && i in journal && !journal[i].published
    requires AtClaim(units[i], f, i, journal[i])
    ensures FilesOk(units, start, Fill(f, Claim(i), content), journal)
    ensures AtClaim(units[i], Fill(f, Claim(i), content), i, journal[i])
  {
    hide Placed, Untouched, Distinct;
    FillLeavesOthers(units, start, f, journal, i, content);
    FillStaysPlaced(units[i], f, i, journal[i], content);
    forall j | j in journal && j != i
      ensures Placed(units[j], Fill(f, Claim(i), content), j, journal[j])
    {
      FillApart(units[j], f, i, content, j, journal[j]);
    }
  }

  lemma FillStaysPlaced(u: Unit, f: Files, i: nat, plan: Plan, content: Content)
    requires AtClaim(u, f, i, plan) && !plan.published
    ensures Placed(u, Fill(f, Claim(i), content), i, plan)
  {
    hide Whole, Holds;
  }

  lemma FillApart(u: Unit, f: Files, i: nat, content: Content, j: nat, plan: Plan)
    requires Claim(i) in f && j != i && Placed(u, f, j, plan)
    ensures Placed(u, Fill(f, Claim(i), content), j, plan)
  {
    hide Whole, Holds, EmptySlot;
  }

  lemma FillLeavesOthers(units: seq<Unit>, start: Files, f: Files, journal: map<nat, Plan>, i: nat, content: Content)
    requires Claim(i) in f && i in journal && Distinct(f) && Untouched(units, start, f, journal)
    ensures Distinct(Fill(f, Claim(i), content)) && Untouched(units, start, Fill(f, Claim(i), content), journal)
  {
    assert Ours(units, journal, Claim(i));
  }

  lemma OursGrows(units: seq<Unit>, start: Files, f: Files, journal: map<nat, Plan>, more: map<nat, Plan>)
    requires forall j :: j in journal ==> j in more && more[j].slot == journal[j].slot
    requires Untouched(units, start, f, journal)
    ensures Untouched(units, start, f, more)
  {
    forall p | Ours(units, journal, p)
      ensures Ours(units, more, p)
    {
      if p.Slot? {
        var j :| j in journal && j < |units| && units[j].root == p.root && journal[j].slot == p.number;
        assert j in more && more[j].slot == p.number;
      }
    }
  }

  lemma OthersStayPlaced(units: seq<Unit>, f: Files, journal: map<nat, Plan>, more: map<nat, Plan>, i: nat)
    requires forall j :: j in more && j != i ==> j in journal && more[j] == journal[j]
    requires forall j :: j in journal && j < |units| ==> Placed(units[j], f, j, journal[j])
    ensures forall j :: j in more && j < |units| && j != i ==> Placed(units[j], f, j, more[j])
  {
  }

  lemma PlanKeepsFiles(units: seq<Unit>, start: Files, f: Files, journal: map<nat, Plan>, i: nat, n: nat)
    requires InOrder(units, journal) && FilesOk(units, start, f, journal) && i < |units| && i !in journal
    requires Slot(units[i].root, n) in f && EmptySlot(f[Slot(units[i].root, n)].content) && Claim(i) !in f
    requires Target(i) !in f
    ensures FilesOk(units, start, f, journal[i := Plan(n, f[Slot(units[i].root, n)].inode, false)])
  {
    var plan := Plan(n, f[Slot(units[i].root, n)].inode, false);
    OursGrows(units, start, f, journal, journal[i := plan]);
    OthersStayPlaced(units, f, journal, journal[i := plan], i);
    assert AtSlot(units[i], f, i, plan);
  }

  lemma PublishKeepsFiles(units: seq<Unit>, start: Files, f: Files, journal: map<nat, Plan>, i: nat)
    requires InOrder(units, journal) && FilesOk(units, start, f, journal) && i in journal
    requires AtTarget(units[i], f, i, journal[i]) && Holds(units[i], f[Target(i)].content)
    ensures FilesOk(units, start, f, journal[i := journal[i].(published := true)])
  {
    var plan := journal[i].(published := true);
    OursGrows(units, start, f, journal, journal[i := plan]);
    OthersStayPlaced(units, f, journal, journal[i := plan], i);
    assert AtTarget(units[i], f, i, plan);
  }

  // ----- every step ----------------------------------------------------------------------------------------

  lemma SafeAfterPut(units: seq<Unit>, start: Files, s: State, g: Files, pc: Pc)
    requires Safe(units, start, s) && FilesOk(units, start, g, s.journal) && s.journal != map[]
    ensures Safe(units, start, Put(s, g).(pc := pc))
  {
  }

  lemma SafeAfterFlush(units: seq<Unit>, start: Files, s: State, pc: Pc)
    requires Safe(units, start, s)
    ensures Safe(units, start, Flush(s).(pc := pc)) && Safe(units, start, s.(pc := pc))
  {
  }

  lemma SafePlanning(units: seq<Unit>, start: Files, s: State, slot: Option<nat>)
    requires Safe(units, start, s) && PcOk(units, s) && Movable(units, s) && s.pc.phase.Planning?
    ensures Safe(units, start, Planned(units, s, s.pc.i, slot))
  {
    hide FilesOk, PcOk;
    var i, s' := s.pc.i, Planned(units, s, s.pc.i, slot);
    if s'.journal != s.journal {
      JournalIsFlushed(units, start, s, s'.journal[i]);
      PlanKeepsFiles(units, start, s.files, s.journal, i, slot.value);
    }
  }

  /** A project is planned after its predecessors are published and flushed. */
  lemma JournalIsFlushed(units: seq<Unit>, start: Files, s: State, plan: Plan)
    requires Safe(units, start, s) && PcOk(units, s) && Movable(units, s) && s.pc.phase.Planning?
    requires s.pc.i !in s.journal
    ensures s.past == {s.files} && InOrder(units, s.journal[s.pc.i := plan])
  {
    hide FilesOk;
  }

  lemma SafeClaiming(units: seq<Unit>, start: Files, s: State)
    requires Safe(units, start, s) && Movable(units, s) && s.pc.phase.Claiming?
    ensures Safe(units, start, Claimed(units, s, s.pc.i))
  {
    var i, s' := s.pc.i, Claimed(units, s, s.pc.i);
    var u, plan := units[i], s.journal[i];
    if s'.pc == At(i, FlushingClaim) {
      assert AtClaim(u, s'.files, i, plan) && !plan.published by { assert Placed(u, s.files, i, plan); }
      RenameKeepsFiles(units, start, s.files, s.journal, i, Slot(u.root, plan.slot), Claim(i));
      SafeAfterPut(units, start, s, s'.files, s'.pc);
    }
  }

  lemma SafeFilling(units: seq<Unit>, start: Files, s: State, content: Content, pc: Pc)
    requires Safe(units, start, s) && s.pc.At? && s.pc.i in s.journal
    requires AtClaim(units[s.pc.i], s.files, s.pc.i, s.journal[s.pc.i]) && !s.journal[s.pc.i].published
    ensures Safe(units, start, Put(s, Fill(s.files, Claim(s.pc.i), content)).(pc := pc))
  {
    var g := Fill(s.files, Claim(s.pc.i), content);
    FillKeepsFiles(units, start, s.files, s.journal, s.pc.i, content);
    SafeAfterPut(units, start, s, g, pc);
  }

  lemma SafeMoving(units: seq<Unit>, start: Files, s: State, pc: Pc)
    requires Safe(units, start, s) && s.pc.At? && s.pc.i in s.journal && !s.journal[s.pc.i].published
    requires AtClaim(units[s.pc.i], s.files, s.pc.i, s.journal[s.pc.i])
    requires Whole(units[s.pc.i], s.files[Claim(s.pc.i)].content)
    ensures AtTarget(units[s.pc.i], Rename(s.files, Claim(s.pc.i), Target(s.pc.i)), s.pc.i, s.journal[s.pc.i])
    ensures Safe(units, start, Put(s, Rename(s.files, Claim(s.pc.i), Target(s.pc.i))).(pc := pc))
  {
    var i, g := s.pc.i, Rename(s.files, Claim(s.pc.i), Target(s.pc.i));
    assert AtTarget(units[i], g, i, s.journal[i]);
    RenameKeepsFiles(units, start, s.files, s.journal, i, Claim(i), Target(i));
    SafeAfterPut(units, start, s, g, pc);
  }

  lemma OrderAfterPublishing(units: seq<Unit>, journal: map<nat, Plan>, i: nat)
    requires InOrder(units, journal) && i in journal
    ensures InOrder(units, journal[i := journal[i].(published := true)])
  {
  }

  lemma SafeRecording(units: seq<Unit>, start: Files, s: State, pc: Pc)
    requires Safe(units, start, s) && s.pc.At? && s.pc.i in s.journal && s.past == {s.files}
    requires AtTarget(units[s.pc.i], s.files, s.pc.i, s.journal[s.pc.i])
    requires Holds(units[s.pc.i], s.files[Target(s.pc.i)].content)
    ensures Safe(units, start, s.(journal := s.journal[s.pc.i := s.journal[s.pc.i].(published := true)], pc := pc))
  {
    assert InOrder(units, s.journal) && FilesOk(units, start, s.files, s.journal);
    OrderAfterPublishing(units, s.journal, s.pc.i);
    PublishKeepsFiles(units, start, s.files, s.journal, s.pc.i);
    assert s.pc.i in s.journal[s.pc.i := s.journal[s.pc.i].(published := true)];
  }

  lemma FillingAtClaim(units: seq<Unit>, s: State)
    requires PcOk(units, s) && s.pc.At? && (s.pc.phase.Emptying? || s.pc.phase.Copying?)
    ensures s.pc.i < |units| && s.pc.i in s.journal && !s.journal[s.pc.i].published
    ensures Claim(s.pc.i) in s.files && AtClaim(units[s.pc.i], s.files, s.pc.i, s.journal[s.pc.i])
  {
    hide Listed, Whole, Holds;
  }

  lemma SafeEmptying(units: seq<Unit>, start: Files, s: State, kept: set<Path>, slot: Option<nat>)
    requires World(units, start) && Inv(units, start, s) && Movable(units, s) && s.pc.phase.Emptying?
    ensures Safe(units, start, Advance(units, s, kept, slot))
  {
    hide Safe, PcOk, AtClaim, Planned, Claimed, Inspected, CopyNext, Distinct, Listed, Holds;
    FillingAtClaim(units, s);
    var content := s.files[Claim(s.pc.i)].content;
    SafeAfterFlush(units, start, s, At(s.pc.i, Copying(0)));
    SafeFilling(units, start, s, map p | p in content && p in kept :: content[p], s.pc);
  }

  lemma SafeCopying(units: seq<Unit>, start: Files, s: State)
    requires World(units, start) && Inv(units, start, s) && Movable(units, s) && s.pc.phase.Copying?
    ensures Safe(units, start, CopyNext(units[s.pc.i], s, s.pc.i, s.pc.phase.k))
  {
    hide Safe, PcOk, AtClaim, Distinct, Holds, CopyOne;
    FillingAtClaim(units, s);
    var i, k, u := s.pc.i, s.pc.phase.k, units[s.pc.i];
    SafeAfterFlush(units, start, s, At(i, Settling));
    SafeAfterFlush(units, start, s, Idle);
    if k < |u.order| {
      assert Listed(u) && u.order[k] in u.order;
      var next := CopyOne(u, s.files[Claim(i)].content, u.order[k]);
      if next.Some? { SafeFilling(units, start, s, next.value, At(i, Copying(k + 1))); }
    }
  }

  lemma SafeRename(units: seq<Unit>, start: Files, s: State, kept: set<Path>, slot: Option<nat>)
    requires World(units, start) && Inv(units, start, s) && Movable(units, s)
    requires s.pc.phase.Planning? || s.pc.phase.Claiming? || s.pc.phase.Moving? || s.pc.phase.Recording?
    ensures Safe(units, start, Advance(units, s, kept, slot))
  {
    hide Safe, Planned, Claimed, AtClaim, AtTarget, Holds, Whole, Distinct, Listed;
    var s' := Advance(units, s, kept, slot);
    if s.pc.phase.Planning? { SafePlanning(units, start, s, slot); }
    else if s.pc.phase.Claiming? { SafeClaiming(units, start, s); }
    else if s.pc.phase.Moving? { SafeMoving(units, start, s, s'.pc); }
    else { SafeRecording(units, start, s, s'.pc); }
  }

  lemma SafeQuiet(units: seq<Unit>, start: Files, s: State, kept: set<Path>, slot: Option<nat>)
    requires World(units, start) && Inv(units, start, s) && Movable(units, s)
    requires !s.pc.phase.Emptying? && !s.pc.phase.Copying?
    requires !s.pc.phase.Planning? && !s.pc.phase.Claiming? && !s.pc.phase.Moving? && !s.pc.phase.Recording?
    ensures Safe(units, start, Advance(units, s, kept, slot))
  {
    hide Safe, PcOk, Holds;
    SafeAfterFlush(units, start, s, Advance(units, s, kept, slot).pc);
  }

  lemma SafeMove(units: seq<Unit>, start: Files, s: State, kept: set<Path>, slot: Option<nat>)
    requires World(units, start) && Inv(units, start, s) && Movable(units, s)
    ensures Safe(units, start, Advance(units, s, kept, slot))
  {
    hide Safe, PcOk, Planned, Claimed, Inspected, CopyNext, Distinct, Listed;
    var phase := s.pc.phase;
    if phase.Emptying? { SafeEmptying(units, start, s, kept, slot); }
    else if phase.Copying? { SafeCopying(units, start, s); }
    else if phase.Planning? || phase.Claiming? || phase.Moving? || phase.Recording? {
      SafeRename(units, start, s, kept, slot);
    } else { SafeQuiet(units, start, s, kept, slot); }
  }

  /** The program counter needs to know of its own project only where that is. */
  predicate PcKnows(units: seq<Unit>, s: State) {
    && (forall u :: u in units ==> Listed(u)) && Movable(units, s) && PcOk(units, s)
    && (s.pc.i in s.journal ==> Placed(units[s.pc.i], s.files, s.pc.i, s.journal[s.pc.i]))
  }

  lemma PcClaims(units: seq<Unit>, s: State, kept: set<Path>, slot: Option<nat>)
    requires PcKnows(units, s)
    requires s.pc.phase.Planning? || s.pc.phase.Claiming? || s.pc.phase.FlushingClaim? || s.pc.phase.Inspecting?
    ensures PcOk(units, Advance(units, s, kept, slot))
  {
  }

  lemma PcFills(units: seq<Unit>, s: State, kept: set<Path>, slot: Option<nat>)
    requires PcKnows(units, s)
    requires s.pc.phase.Emptying? || s.pc.phase.Copying? || s.pc.phase.Settling?
    ensures PcOk(units, Advance(units, s, kept, slot))
  {
    hide Planned, Claimed, Inspected, AtTarget, Holds, EmptySlot;
  }

  lemma PcPublishes(units: seq<Unit>, s: State, kept: set<Path>, slot: Option<nat>)
    requires PcKnows(units, s)
    requires s.pc.phase.FlushingTarget? || s.pc.phase.Moving? || s.pc.phase.Comparing? || s.pc.phase.Sealing?
             || s.pc.phase.Recording?
    ensures PcOk(units, Advance(units, s, kept, slot))
  {
  }

  lemma MoveKeepsInv(units: seq<Unit>, start: Files, s: State, kept: set<Path>, slot: Option<nat>)
    requires World(units, start) && Inv(units, start, s) && Movable(units, s)
    ensures Inv(units, start, Advance(units, s, kept, slot))
  {
    var phase := s.pc.phase;
    assert FilesOk(units, start, s.files, s.journal);
    SafeMove(units, start, s, kept, slot);
    if phase.Planning? || phase.Claiming? || phase.FlushingClaim? || phase.Inspecting? {
      PcClaims(units, s, kept, slot);
    } else if phase.Emptying? || phase.Copying? || phase.Settling? { PcFills(units, s, kept, slot); }
    else { PcPublishes(units, s, kept, slot); }
  }

  lemma StartKeepsInv(units: seq<Unit>, start: Files, s: State)
    requires Inv(units, start, s) && s.pc.Idle?
    requires s.journal != map[] ==> 0 in s.journal
    ensures Inv(units, start, s.(pc := if |units| == 0 then Finished else At(0, Planning)))
  {
  }

  lemma LossKeepsInv(units: seq<Unit>, start: Files, s: State, survivor: Files)
    requires Inv(units, start, s) && survivor in s.past
    ensures Inv(units, start, s.(files := survivor, past := {survivor}, pc := Idle))
  {
    assert FilesOk(units, start, survivor, s.journal);
  }

  lemma FirstIsPlannedFirst(units: seq<Unit>, journal: map<nat, Plan>)
    requires InOrder(units, journal)
    ensures journal != map[] ==> 0 in journal
  {
    if journal != map[] {
      var k :| k in journal;
      assert k == 0 || 0 in journal;
    }
  }

  lemma StepKeepsInv(units: seq<Unit>, start: Files, s: State, e: Event)
    requires World(units, start) && Inv(units, start, s)
    ensures Inv(units, start, Step(units, s, e))
  {
    if Enabled(units, s, e) {
      match e
      case Start =>
        FirstIsPlannedFirst(units, s.journal);
        StartKeepsInv(units, start, s);
      case Move(kept, slot) => MoveKeepsInv(units, start, s, kept, slot);
      case Crash => SafeAfterFlush(units, start, s, Idle);
      case PowerLoss(survivor) => LossKeepsInv(units, start, s, survivor);
    }
  }

  lemma RunKeepsInv(units: seq<Unit>, start: Files, es: seq<Event>)
    requires World(units, start)
    ensures Inv(units, start, Run(units, start, es))
    decreases |es|
  {
    if es != [] {
      RunKeepsInv(units, start, es[..|es| - 1]);
      StepKeepsInv(units, start, Run(units, start, es[..|es| - 1]), es[|es| - 1]);
    }
  }

  // ----- what holds after any run with any crashes ---------------------------------------------------------

  /** A planned directory is at exactly one of its slot, its claim and its target. */
  lemma InOnePlace(units: seq<Unit>, start: Files, es: seq<Event>, i: nat) returns (p: Place)
    requires World(units, start) && i in Run(units, start, es).journal && i < |units|
    ensures var s := Run(units, start, es);
            && p in s.files && s.files[p].inode == s.journal[i].inode
            && p in {Slot(units[i].root, s.journal[i].slot), Claim(i), Target(i)}
            && forall q :: q in s.files && q != p ==>
                 s.files[q].inode != s.journal[i].inode
                   && q !in {Slot(units[i].root, s.journal[i].slot), Claim(i), Target(i)}
  {
    RunKeepsInv(units, start, es);
    var s := Run(units, start, es);
    assert FilesOk(units, start, s.files, s.journal);
    assert Placed(units[i], s.files, i, s.journal[i]);
    p := if Target(i) in s.files then Target(i) else if Claim(i) in s.files then Claim(i)
      else Slot(units[i].root, s.journal[i].slot);
  }

  /** Whatever stands at a planned target is a whole copy; and what the journal calls published is
      there and equals its inventory. */
  lemma TargetsAreWhole(units: seq<Unit>, start: Files, es: seq<Event>, i: nat)
    requires World(units, start) && i in Run(units, start, es).journal && i < |units|
    ensures var s := Run(units, start, es);
            && (Target(i) in s.files ==> Whole(units[i], s.files[Target(i)].content))
            && (Target(i) in s.files && Faithful(units[i]) ==> Holds(units[i], s.files[Target(i)].content))
            && (s.journal[i].published ==> Target(i) in s.files && Holds(units[i], s.files[Target(i)].content))
  {
    RunKeepsInv(units, start, es);
    var s := Run(units, start, es);
    assert FilesOk(units, start, s.files, s.journal);
    assert Placed(units[i], s.files, i, s.journal[i]);
    CopyIsExact(units[i]);
  }

  /** No directory that was there before is touched, except a slot that a plan names. */
  lemma NothingElseTouched(units: seq<Unit>, start: Files, es: seq<Event>)
    requires World(units, start)
    ensures Untouched(units, start, Run(units, start, es).files, Run(units, start, es).journal)
  {
    RunKeepsInv(units, start, es);
    assert FilesOk(units, start, Run(units, start, es).files, Run(units, start, es).journal);
  }

  /** Content is deleted or written only in the claim, and only in the directory that was planned. */
  lemma OnlyTheClaimChanges(units: seq<Unit>, start: Files, es: seq<Event>, e: Event, p: Place)
    requires World(units, start) && !e.PowerLoss?
    ensures var s, s' := Run(units, start, es), Step(units, Run(units, start, es), e);
            p in s.files && p in s'.files && s.files[p] != s'.files[p] ==>
              && s.pc.At? && p == Claim(s.pc.i) && s.pc.i in s.journal
              && s.files[p].inode == s'.files[p].inode == s.journal[s.pc.i].inode
  {
    RunKeepsInv(units, start, es);
    var s := Run(units, start, es);
    assert FilesOk(units, start, s.files, s.journal);
    if Enabled(units, s, e) && e.Move? { ChangesTheClaim(units, s, e.kept, e.slot, p); }
  }

  lemma ChangesTheClaim(units: seq<Unit>, s: State, kept: set<Path>, slot: Option<nat>, p: Place)
    requires PcKnows(units, s)
    ensures var s' := Advance(units, s, kept, slot);
            p in s.files && p in s'.files && s.files[p] != s'.files[p] ==>
              && p == Claim(s.pc.i) && s.pc.i in s.journal
              && s.files[p].inode == s'.files[p].inode == s.journal[s.pc.i].inode
  {
  }

  // ----- a complete run ----------------------------------------------------------------------------------------

  predicate Plannable(u: Unit, files: Files, i: nat, slot: Option<nat>) {
    && Target(i) !in files && Claim(i) !in files && slot.Some?
    && Slot(u.root, slot.value) in files && EmptySlot(files[Slot(u.root, slot.value)].content)
  }

  /** Where a run without faults stops with an error: no slot to plan with, a path that cannot be
      copied, or staged bytes that are not the inventory's. Every other check passes. */
  predicate Blocked(units: seq<Unit>, s: State, slot: Option<nat>)
    requires Movable(units, s)
  {
    var i, u := s.pc.i, units[s.pc.i];
    || (s.pc.phase.Planning? && i !in s.journal && !Plannable(u, s.files, i, slot))
    || (s.pc.phase.Copying? && s.pc.phase.k < |u.order| && !Placeable(u, u.order[s.pc.phase.k]))
    || (s.pc.phase.Comparing? && !Faithful(u))
  }

  lemma CopyErrors(u: Unit, s: State, i: nat, k: nat)
    requires Listed(u) && k <= |u.order| && Claim(i) in s.files && CopyUpTo(u, k) == Some(s.files[Claim(i)].content)
    ensures CopyNext(u, s, i, k).pc.Idle? <==> k < |u.order| && !Placeable(u, u.order[k])
  {
    if k < |u.order| {
      CopyProgress(u, k);
      NextCopies(u, s.files[Claim(i)].content, k);
    }
  }

  lemma ClaimErrors(units: seq<Unit>, s: State, kept: set<Path>, slot: Option<nat>)
    requires PcKnows(units, s)
    requires s.pc.phase.Planning? || s.pc.phase.Claiming? || s.pc.phase.Inspecting?
    ensures Advance(units, s, kept, slot).pc.Idle? <==> Blocked(units, s, slot)
  {
  }

  lemma ErrorsAreExact(units: seq<Unit>, s: State, kept: set<Path>, slot: Option<nat>)
    requires PcKnows(units, s)
    ensures Advance(units, s, kept, slot).pc.Idle? <==> Blocked(units, s, slot)
  {
    if s.pc.phase.Copying? {
      CopyErrors(units[s.pc.i], s, s.pc.i, s.pc.phase.k);
    } else if s.pc.phase.Comparing? {
      CopyIsExact(units[s.pc.i]);
    } else if s.pc.phase.Planning? || s.pc.phase.Claiming? || s.pc.phase.Inspecting? {
      ClaimErrors(units, s, kept, slot);
    }
  }

  ghost function SlotsOf(files: Files, root: nat): (r: set<Place>) {
    set p | p in files && p.Slot? && p.root == root
  }

  lemma LeastSlot(slots: set<Place>) returns (p: Place)
    requires slots != {} && forall q :: q in slots ==> q.Slot?
    ensures p in slots && forall q :: q in slots ==> p.number <= q.number
    decreases |slots|
  {
    p :| p in slots;
    if slots != {p} {
      assert slots == (slots - {p}) + {p};
      var q := LeastSlot(slots - {p});
      if q.number < p.number { p := q; }
    }
  }

  lemma SomeFirstSlot(files: Files, root: nat)
    ensures exists slot :: FirstSlot(files, root, slot) && (slot.Some? <==> SlotsOf(files, root) != {})
  {
    assert forall p :: p in files && p.Slot? && p.root == root ==> p in SlotsOf(files, root);
    if SlotsOf(files, root) == {} {
      assert FirstSlot(files, root, None);
    } else {
      var p := LeastSlot(SlotsOf(files, root));
      assert FirstSlot(files, root, Some(p.number));
    }
  }

  /** What the pool listing gives. */
  ghost function Listing(files: Files, root: nat): (slot: Option<nat>)
    ensures FirstSlot(files, root, slot)
    ensures slot.Some? <==> SlotsOf(files, root) != {}
  {
    SomeFirstSlot(files, root);
    var slot :| FirstSlot(files, root, slot) && (slot.Some? <==> SlotsOf(files, root) != {});
    slot
  }

  function PhaseLeft(phase: Phase): (n: nat) {
    match phase
    case Planning => 12
    case Claiming => 11
    case FlushingClaim => 10
    case Inspecting => 9
    case Emptying => 8
    case Copying(_) => 7
    case Settling => 6
    case Moving => 5
    case FlushingTarget => 4
    case Comparing => 3
    case Sealing => 2
    case Recording => 1
  }

  function WithinPhase(units: seq<Unit>, s: State): (n: nat)
    requires Movable(units, s)
  {
    if s.pc.phase.Emptying? then |s.files[Claim(s.pc.i)].content|
    else if s.pc.phase.Copying? && s.pc.phase.k <= |units[s.pc.i].order| then |units[s.pc.i].order| - s.pc.phase.k
    else 0
  }

  lemma PcIsMovable(units: seq<Unit>, start: Files, s: State)
    requires World(units, start) && Inv(units, start, s)
    ensures s.pc.At? ==> PcKnows(units, s)
  {
    assert FilesOk(units, start, s.files, s.journal);
  }

  lemma CleanMoveGoesOn(units: seq<Unit>, s: State, slot: Option<nat>)
    requires PcKnows(units, s)
    ensures var s' := Advance(units, s, {}, slot);
            s'.pc.At? && Movable(units, s') ==>
              || s.pc.i < s'.pc.i
              || (s.pc.i == s'.pc.i && PhaseLeft(s'.pc.phase) < PhaseLeft(s.pc.phase))
              || (s.pc.i == s'.pc.i && s'.pc.phase == s.pc.phase && WithinPhase(units, s') < WithinPhase(units, s))
              || (s.pc.i == s'.pc.i && s'.pc.phase.Copying? && s.pc.phase.Copying?
                  && WithinPhase(units, s') < WithinPhase(units, s))
  {
    hide PcOk, Placed, Holds, Listed, EmptySlot, CopyOne;
    if s.pc.phase.Emptying? {
      var s' := Advance(units, s, {}, slot);
      assert s'.pc.phase.Emptying? ==> s'.files[Claim(s.pc.i)].content.Keys == {};
    }
  }

  /** A run from here to its end, without faults. */
  ghost function Complete(units: seq<Unit>, start: Files, s: State): (s': State)
    requires World(units, start) && Inv(units, start, s)
    ensures Inv(units, start, s') && !s'.pc.At?
    decreases if s.pc.At? then |units| - s.pc.i else 0, if s.pc.At? then PhaseLeft(s.pc.phase) else 0,
              if s.pc.At? && Movable(units, s) then WithinPhase(units, s) else 0
  {
    if !s.pc.At? then s
    else
      PcIsMovable(units, start, s);
      var slot := Listing(s.files, units[s.pc.i].root);
      MoveKeepsInv(units, start, s, {}, slot);
      CleanMoveGoesOn(units, s, slot);
      var next := Advance(units, s, {}, slot);
      PcIsMovable(units, start, next);
      Complete(units, start, next)
  }

  // ----- when a complete run publishes everything ---------------------------------------------------------------

  function Count(units: seq<Unit>, root: nat, m: nat): (n: nat)
    requires m <= |units|
  {
    if m == 0 then 0 else Count(units, root, m - 1) + if units[m - 1].root == root then 1 else 0
  }

  /** Sound inventories, a fresh destination, and prepared empty slots enough for every project. */
  ghost predicate Ready(units: seq<Unit>, start: Files) {
    && (forall u :: u in units ==> Copyable(u) && Faithful(u))
    && (forall p :: p in start ==> p.Slot? && EmptySlot(start[p].content))
    && forall root :: |SlotsOf(start, root)| >= Count(units, root, |units|)
  }

  /** The slots that the first `m` plans took from a pool. */
  ghost function Taken(units: seq<Unit>, journal: map<nat, Plan>, root: nat, m: nat): (r: set<Place>)
    requires m <= |units| && forall j :: 0 <= j < m ==> j in journal
    ensures |r| <= Count(units, root, m)
  {
    if m == 0 then {}
    else Taken(units, journal, root, m - 1)
         + if units[m - 1].root == root then {Slot(root, journal[m - 1].slot)} else {}
  }

  lemma TakenHas(units: seq<Unit>, journal: map<nat, Plan>, root: nat, m: nat, j: nat)
    requires m <= |units| && (forall j :: 0 <= j < m ==> j in journal) && j < m && units[j].root == root
    ensures Slot(root, journal[j].slot) in Taken(units, journal, root, m)
  {
    if j < m - 1 { TakenHas(units, journal, root, m - 1, j); }
  }

  lemma CountGrows(units: seq<Unit>, root: nat, m: nat, n: nat)
    requires m <= n <= |units|
    ensures Count(units, root, m) <= Count(units, root, n)
  {
    if m < n { CountGrows(units, root, m, n - 1); }
  }

  lemma Covers<T>(a: set<T>, b: set<T>, c: set<T>)
    requires a <= b + c
    ensures |a| <= |b| + |c|
  {
    assert |b + c| <= |b| + |c|;
    SubsetIsSmaller(a, b + c);
  }

  lemma SomeSlotIsLeft(units: seq<Unit>, start: Files, f: Files, journal: map<nat, Plan>, i: nat)
    requires Untouched(units, start, f, journal) && i < |units|
    requires forall j :: 0 <= j < |units| ==> (j in journal <==> j < i)
    requires |SlotsOf(start, units[i].root)| >= Count(units, units[i].root, |units|)
    ensures SlotsOf(f, units[i].root) != {}
  {
    var root := units[i].root;
    forall p | p in SlotsOf(start, root)
      ensures p in SlotsOf(f, root) + Taken(units, journal, root, i)
    {
      if Ours(units, journal, p) {
        var j :| j in journal && j < |units| && units[j].root == p.root && journal[j].slot == p.number;
        TakenHas(units, journal, root, i, j);
      }
    }
    Covers(SlotsOf(start, root), SlotsOf(f, root), Taken(units, journal, root, i));
    CountGrows(units, root, i + 1, |units|);
  }

  lemma NotOurs(units: seq<Unit>, f: Files, journal: map<nat, Plan>, root: nat, n: nat)
    requires forall j :: j in journal && j < |units| ==> Placed(units[j], f, j, journal[j]) && journal[j].published
    requires Slot(root, n) in f
    ensures !Ours(units, journal, Slot(root, n))
  {
  }

  /** The next project always finds a slot. */
  lemma PlanningSucceeds(units: seq<Unit>, start: Files, f: Files, journal: map<nat, Plan>, i: nat, slot: Option<nat>)
    requires Ready(units, start) && Untouched(units, start, f, journal) && i < |units|
    requires forall j :: 0 <= j < |units| ==> (j in journal <==> j < i)
    requires forall j :: j in journal && j < |units| ==> Placed(units[j], f, j, journal[j]) && journal[j].published
    requires FirstSlot(f, units[i].root, slot)
    requires slot.Some? <==> SlotsOf(f, units[i].root) != {}
    ensures Plannable(units[i], f, i, slot)
  {
    SomeSlotIsLeft(units, start, f, journal, i);
    NotOurs(units, f, journal, units[i].root, slot.value);
    assert !Ours(units, journal, Claim(i)) && !Ours(units, journal, Target(i));
  }

  lemma EarlierAreJournalled(units: seq<Unit>, journal: map<nat, Plan>, i: nat)
    requires InOrder(units, journal) && i !in journal && i < |units|
    requires forall j :: 0 <= j < i ==> j in journal && journal[j].published
    ensures forall j :: 0 <= j < |units| ==> (j in journal <==> j < i)
    ensures forall j :: j in journal ==> journal[j].published
  {
    forall j | j in journal ensures j < i {}
  }

  lemma EarlierArePublished(units: seq<Unit>, start: Files, s: State)
    requires Inv(units, start, s) && s.pc.At? && s.pc.i !in s.journal
    ensures Untouched(units, start, s.files, s.journal)
    ensures forall j :: 0 <= j < |units| ==> (j in s.journal <==> j < s.pc.i)
    ensures forall j :: j in s.journal && j < |units| ==>
              Placed(units[j], s.files, j, s.journal[j]) && s.journal[j].published
  {
    EarlierAreJournalled(units, s.journal, s.pc.i);
    assert FilesOk(units, start, s.files, s.journal);
  }

  lemma {:induction false} CompleteFinishes(units: seq<Unit>, start: Files, s: State)
    requires World(units, start) && Ready(units, start) && Inv(units, start, s) && !s.pc.Idle?
    ensures Complete(units, start, s).pc.Finished?
    decreases if s.pc.At? then |units| - s.pc.i else 0, if s.pc.At? then PhaseLeft(s.pc.phase) else 0,
              if s.pc.At? && Movable(units, s) then WithinPhase(units, s) else 0
  {
    if s.pc.At? {
      var u := units[s.pc.i];
      PcIsMovable(units, start, s);
      var slot := Listing(s.files, u.root);
      MoveKeepsInv(units, start, s, {}, slot);
      CleanMoveGoesOn(units, s, slot);
      var next := Advance(units, s, {}, slot);
      PcIsMovable(units, start, next);
      ErrorsAreExact(units, s, {}, slot);
      if s.pc.phase.Planning? && s.pc.i !in s.journal {
        EarlierArePublished(units, start, s);
        PlanningSucceeds(units, start, s.files, s.journal, s.pc.i, slot);
      }
      assert Copyable(u) && Faithful(u);
      assert !Blocked(units, s, slot);
      CompleteFinishes(units, start, next);
    }
  }

  /** Any run with any crashes and power losses, then one complete run: every project is published,
      flushed and equal to its inventory, in the very directory that was planned for it. */
  lemma OneCompleteRunPublishesAll(units: seq<Unit>, start: Files, es: seq<Event>)
    requires World(units, start) && Ready(units, start) && Run(units, start, es).pc.Idle?
    ensures Inv(units, start, Step(units, Run(units, start, es), Start))
    ensures var t := Complete(units, start, Step(units, Run(units, start, es), Start));
            && t.pc.Finished? && t.past == {t.files}
            && forall i :: 0 <= i < |units| ==>
                 && i in t.journal && t.journal[i].published
                 && Target(i) in t.files && t.files[Target(i)].inode == t.journal[i].inode
                 && Holds(units[i], t.files[Target(i)].content)
  {
    RunKeepsInv(units, start, es);
    var s := Step(units, Run(units, start, es), Start);
    StepKeepsInv(units, start, Run(units, start, es), Start);
    CompleteFinishes(units, start, s);
    var t := Complete(units, start, s);
    assert FilesOk(units, start, t.files, t.journal);
    forall i | 0 <= i < |units|
      ensures Placed(units[i], t.files, i, t.journal[i])
    {
    }
  }

  /** A directory that is not the planned one is not touched: the run stops before it. */
  lemma StrangersStop(units: seq<Unit>, s: State, kept: set<Path>, slot: Option<nat>)
    requires Movable(units, s) && s.pc.i in s.journal && forall u :: u in units ==> Listed(u)
    ensures var i, plan := s.pc.i, s.journal[s.pc.i];
            var place := Slot(units[i].root, plan.slot);
            && (s.pc.phase.Claiming? && Target(i) !in s.files && Claim(i) !in s.files
                && (place in s.files ==> s.files[place].inode != plan.inode || !EmptySlot(s.files[place].content)) ==>
                  Advance(units, s, kept, slot) == s.(pc := Idle))
            && (s.pc.phase.Inspecting? && (Target(i) in s.files ==> s.files[Target(i)].inode != plan.inode)
                && (Claim(i) in s.files ==> s.files[Claim(i)].inode != plan.inode) ==>
                  Advance(units, s, kept, slot) == s.(pc := Idle))
  {
    hide EmptySlot;
  }

  /** A crash ends the run; a power loss ends it and settles what the file systems hold. */
  lemma OutsideLeaves(units: seq<Unit>, s: State, survivor: Files)
    requires forall u :: u in units ==> Listed(u)
    ensures Step(units, s, Crash) == s.(pc := Idle)
    ensures survivor in s.past ==>
              Step(units, s, PowerLoss(survivor)) == s.(files := survivor, past := {survivor}, pc := Idle)
    ensures s.pc.Idle? ==>
              Step(units, s, Start) == s.(pc := if |units| == 0 then Finished else At(0, Planning))
  {
    hide Advance;
  }
}
