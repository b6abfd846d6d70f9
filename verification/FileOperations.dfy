/** The file supervisor over the whole system: database rows, one durable effect per operation,
    and the supervisor's own memory, which a crash erases (apps/supervisor/src/files.ts). */
module FileOperations {
  import opened Reservations
  import opened ReservationRules
  import FE = FileEffect

  /** Where `processFiles` stands between two awaits. */
  datatype Phase =
    | Booting                               // before `recoverFileStartup`
    | Resting
    | Scanning(todo: seq<Id>)
    | Executing(x: Id, epoch: nat)
    | Settling(x: Id, epoch: nat)           // `epoch` 0: the claim's reply never arrived
    | Inspecting(x: Id)

  datatype System = System(
    db: Db,
    effects: map<Id, FE.State>,
    results: map<Id, FE.Result>,            // the result column of succeeded rows
    phase: Phase,
    repairs: map<Id, FileState>,
    late: set<Id>)                          // failed although the error followed publication

  const START := System(EMPTY, map[], map[], Booting, map[], {})

  /** `committed` is the database's view of a transaction, `replied` the supervisor's; `built` says that
      the claimed operation's command was put together and its call begun. */
  datatype Event =
    | Others(tx: Tx)
    | Outside(x: Id, move: FE.Event)
    | Crash
    | Startup
    | Repair(x: Id, committed: bool, replied: bool)
    | Scan(found: seq<Id>)
    | Skip
    | GiveUp
    | Claim(committed: bool, replied: bool, built: bool)
    | Call(move: FE.Event)
    | CallEnded(retired: bool)
    | SettleNow(committed: bool, replied: bool, again: bool)
    | Inspect(x: Id)
    | ProbeMove(move: FE.Event)
    | InspectEnded(committed: bool, refused: bool)

  // ----- one event -----------------------------------------------------------------------

  predicate BySupervisor(tx: Tx) {
    tx.ClaimFileTx? || tx.SettleTx? || tx.RecoverStartupTx? || tx.FinishInspectionTx? || tx.FailInspectionTx?
  }

  /** Moves of the running `executeFile`; it is begun by the claim and ended by the dispatcher. */
  predicate CallMove(e: FE.Event) {
    !FE.ByHelper(e) && !FE.ByProbe(e) && !e.Begin? && !e.End?
  }

  /** What the dispatcher makes of an error. A stale revision is reported by the helper before
      publication, so it carries the rejection as well. */
  function Verdict(retired: bool, sent: bool, rejected: bool): (state: FileState) {
    if !retired || (sent && !rejected) then Uncertain else Failed
  }

  predicate Candidate(d: Db, x: Id) {
    && x in d.files && d.files[x].state.Queued? && d.files[x].workspace in d.workspaces
    && d.workspaces[d.files[x].workspace].writer.Nobody? && Usable(d, d.files[x].workspace)
  }

  predicate Enabled(s: System, e: Event) {
    match e
    case Others(tx) => !BySupervisor(tx)
    case Outside(x, move) => x in s.effects && FE.ByHelper(move) && !move.Crash?
    case Crash => true
    case Startup => s.phase.Booting?
    case Repair(x, committed, replied) =>
      s.phase.Resting? && x in s.repairs && x in s.db.files && (replied ==> committed)
    case Scan(found) =>
      s.phase.Resting? && s.repairs == map[] && |found| <= 20 && forall x :: x in found ==> Candidate(s.db, x)
    case Skip => s.phase.Scanning? && s.phase.todo != []
    case GiveUp => s.phase.Scanning?
    case Claim(committed, replied, built) =>
      && s.phase.Scanning? && s.phase.todo != [] && s.phase.todo[0] in s.effects
      && (built ==> replied) && (replied ==> committed) && (committed ==> CanClaimFile(s.db, s.phase.todo[0]))
    case Call(move) => s.phase.Executing? && s.phase.x in s.effects && CallMove(move)
    case CallEnded(_) => s.phase.Executing? && s.phase.x in s.effects && s.effects[s.phase.x].call.Done?
    case SettleNow(committed, replied, again) =>
      s.phase.Settling? && s.phase.x in s.repairs && s.phase.x in s.db.files && (replied ==> committed && !again)
    case Inspect(x) => s.phase.Resting? && s.repairs == map[] && x in s.effects && CanInspect(s.db, x)
    case ProbeMove(move) => s.phase.Inspecting? && s.phase.x in s.effects && move.ProbeStep?
    case InspectEnded(committed, refused) =>
      s.phase.Inspecting? && s.phase.x in s.effects && !FE.ProbeEnabled(s.effects[s.phase.x], false, false)
  }

  function Touch(s: System, x: Id, move: FE.Event): (s': System)
    requires x in s.effects
  {
    s.(effects := s.effects[x := FE.Step(s.effects[x], move)])
  }

  function SettleRow(s: System, x: Id, epoch: nat): (d: Db)
    requires x in s.repairs
  {
    Apply(s.db, SettleTx(x, s.repairs[x], epoch))
  }

  /** An error before the call begins settles the row as failed: under its epoch when the claim's reply
      arrived, under none otherwise. */
  function DoClaim(s: System, x: Id, committed: bool, replied: bool, built: bool): (s': System)
    requires x in s.effects && (built ==> replied) && (replied ==> committed) && (committed ==> CanClaimFile(s.db, x))
  {
    var d := if committed then ClaimFile(s.db, x) else s.db;
    if built then
      Touch(s.(db := d, phase := Executing(x, d.files[x].epoch)), x, FE.Begin(x))
    else
      s.(db := d, phase := Settling(x, if replied then d.files[x].epoch else 0), repairs := s.repairs[x := Failed])
  }

  function DoCallEnded(s: System, x: Id, epoch: nat, retired: bool): (s': System)
    requires x in s.effects && s.effects[x].call.Done?
  {
    var e := s.effects[x];
    match e.call.outcome
    case Returned(r) =>
      Touch(s.(phase := Settling(x, epoch), repairs := s.repairs[x := Succeeded], results := s.results[x := r]), x,
            FE.End)
    case Failed(rejected, after) =>
      var state := Verdict(retired, e.sent, rejected);
      var s1 := if retired then Touch(s, x, FE.OutsideRetire) else s;
      Touch(s1.(phase := Settling(x, epoch), repairs := s.repairs[x := state],
                late := if state.Failed? && after then s.late + {x} else s.late), x, FE.End)
  }

  function Do(s: System, e: Event): (s': System)
    requires Enabled(s, e)
  {
    match e
    case Others(tx) =>
      var d := Apply(s.db, tx);
      s.(db := d, effects := map x | x in d.files :: if x in s.effects then s.effects[x] else FE.INITIAL)
    case Outside(x, move) => Touch(s, x, move)
    case Crash =>
      s.(phase := Booting, repairs := map[], effects := map x | x in s.effects :: FE.Step(s.effects[x], FE.Crash))
    case Startup => s.(db := RecoverStartup(s.db), phase := Resting)
    case Repair(x, committed, replied) =>
      s.(db := if committed then SettleRow(s, x, s.db.files[x].epoch) else s.db,
         repairs := if replied then s.repairs - {x} else s.repairs)
    case Scan(found) => s.(phase := Scanning(found))
    case Skip => s.(phase := Scanning(s.phase.todo[1..]))
    case GiveUp => s.(phase := Resting)
    case Claim(committed, replied, built) => DoClaim(s, s.phase.todo[0], committed, replied, built)
    case Call(move) => Touch(s, s.phase.x, move)
    case CallEnded(retired) => DoCallEnded(s, s.phase.x, s.phase.epoch, retired)
    case SettleNow(committed, replied, again) =>
      s.(db := if committed then SettleRow(s, s.phase.x, s.phase.epoch) else s.db,
         repairs := if replied then s.repairs - {s.phase.x} else s.repairs,
         phase := if again then s.phase else Resting)
    case Inspect(x) => Touch(s.(phase := Inspecting(x)), x, FE.ProbeBegin(x))
    case ProbeMove(move) => Touch(s, s.phase.x, move)
    case InspectEnded(committed, refused) =>
      var d := if committed then Apply(s.db, FinishInspectionTx(s.phase.x)) else s.db;
      Touch(s.(db := if refused then FailInspection(d, s.phase.x) else d, phase := Resting), s.phase.x, FE.ProbeEnd)
  }

  function Step(s: System, e: Event): (s': System) {
    if Enabled(s, e) then Do(s, e) else s
  }

  function Run(es: seq<Event>): (s: System)
    decreases |es|
  {
    if es == [] then START else Step(Run(es[..|es| - 1]), es[|es| - 1])
  }

  // ----- the agreement of the three durable states ------------------------------------------

  /** No helper was started and nothing was published. */
  predicate Untouched(e: FE.State) {
    e.receipt.Missing? && !e.sent && e.launches == 0
  }

  /** Nothing was published, and nothing can be: the helper is gone for good. */
  predicate Barren(e: FE.State) {
    e.publications == [] && e.helper.Absent?
  }

  predicate Excused(e: FE.State, late: bool) {
    if late then |e.publications| == 1 && e.helper.Absent? else Barren(e)
  }

  predicate Confirmed(e: FE.State, results: map<Id, FE.Result>, x: Id) {
    x in results && e.receipt == FE.Completed(results[x])
  }

  /** The settlement kept in memory for a row that may or may not have taken it already. */
  predicate RepairFits(repair: FileState, state: FileState, e: FE.State, confirmed: bool, late: bool) {
    match repair
    case Succeeded => (state.Dispatching? || state.Succeeded?) && confirmed
    case Failed => (state.Queued? || state.Dispatching? || state.Failed?) && Excused(e, late)
    case Uncertain => state.Dispatching? || state.Uncertain?
    case _ => false
  }

  predicate RowFits(state: FileState, e: FE.State, confirmed: bool, late: bool) {
    && (state.Queued? ==> Untouched(e) && !late)
    && (state.Succeeded? ==> confirmed)
    && (state.Failed? ==> Excused(e, late))
  }

  ghost predicate RowInv(s: System, x: Id)
    requires x in s.db.files && x in s.effects
  {
    var state, e := s.db.files[x].state, s.effects[x];
    var confirmed := Confirmed(e, s.results, x);
    && FE.Reachable(e)
    && RowFits(state, e, confirmed, x in s.late)
    && (!e.call.NoCall? ==> s.phase.Executing? && s.phase.x == x)
    && (!e.probe.NoProbe? ==> s.phase.Inspecting? && s.phase.x == x)
    && (x in s.repairs ==> RepairFits(s.repairs[x], state, e, confirmed, x in s.late))
  }

  ghost predicate PhaseInv(s: System) {
    match s.phase
    case Booting => s.repairs == map[]
    case Resting => true
    case Scanning(todo) =>
      s.repairs == map[] && forall x :: x in todo ==> x in s.db.files && s.db.files[x].state.Queued?
    case Executing(x, epoch) =>
      && s.repairs == map[] && x in s.db.files && s.db.files[x].state.Dispatching? && s.db.files[x].epoch == epoch
      && epoch != 0 && x !in s.late && x in s.effects && !s.effects[x].call.NoCall?
    case Settling(x, epoch) =>
      x in s.repairs && x in s.db.files && (epoch != 0 ==> s.db.files[x].epoch == epoch)
    case Inspecting(x) => s.repairs == map[] && x in s.db.files && s.db.files[x].state.Uncertain?
  }

  ghost predicate Inv(s: System) {
    && FileRules(s.db)
    && s.effects.Keys == s.db.files.Keys
    && s.repairs.Keys <= s.db.files.Keys && s.results.Keys <= s.db.files.Keys && s.late <= s.db.files.Keys
    && (forall x :: x in s.db.files ==> RowInv(s, x))
    && PhaseInv(s)
  }

  // ----- every event keeps the agreement -------------------------------------------------------

  lemma FilesUntouched(d: Db, tx: Tx)
    requires !IsFileTx(tx)
    ensures Apply(d, tx).files == d.files
  {
    hide ApplyPreview, LeaseHeld, GitPending;
    if IsPreviewTx(tx) {
      if OnlyRow(tx) { RowTxShape(d, tx); } else { MovesLeaveFiles(d, tx); }
    }
  }

  lemma MovesLeaveFiles(d: Db, tx: Tx)
    requires tx.ClaimPreviewTx? || tx.SettleRetirementTx? || tx.RecoverPreviewTx?
    ensures ApplyPreview(d, tx).files == d.files
  {
    hide CanClaimPreview, LivePreviews, GitPending;
  }

  lemma OthersKeepRows(d: Db, tx: Tx)
    requires !BySupervisor(tx)
    ensures forall x :: x in d.files ==>
      x in Apply(d, tx).files && Apply(d, tx).files[x].state == d.files[x].state
        && Apply(d, tx).files[x].epoch == d.files[x].epoch
    ensures forall x :: x in Apply(d, tx).files && x !in d.files ==> Apply(d, tx).files[x].state.Queued?
  {
    if !IsFileTx(tx) { FilesUntouched(d, tx); }
  }

  lemma OthersKeepInv(s: System, tx: Tx)
    requires Inv(s) && !BySupervisor(tx)
    ensures Inv(Do(s, Others(tx)))
  {
    var s' := Do(s, Others(tx));
    EveryTxKeepsFiles(s.db, tx);
    OthersKeepRows(s.db, tx);
    FE.InitialIsReachable();
    assert s'.effects.Keys == s'.db.files.Keys;
    forall x | x in s'.db.files ensures RowInv(s', x) {
      if x in s.db.files { assert RowInv(s, x); }
    }
  }

  /** Moves of a helper on its own keep every fact that rows and repairs rely on. */
  lemma OutsideKeepsFacts(e: FE.State, move: FE.Event)
    requires FE.Reachable(e) && FE.ByHelper(move) && !move.Crash?
    ensures FE.Reachable(FE.Step(e, move))
    ensures FE.Step(e, move).receipt == e.receipt && FE.Step(e, move).call == e.call
    ensures FE.Step(e, move).probe == e.probe
    ensures FE.Step(e, move).launches == e.launches && FE.Step(e, move).sent == e.sent
    ensures e.helper.Absent? ==> FE.Step(e, move).publications == e.publications && FE.Step(e, move).helper.Absent?
  {
    FE.StepIsReachable(e, move);
  }

  /** A change of one operation's effect, memory and phase. */
  ghost predicate OnlyAt(s: System, s': System, x: Id) {
    && s'.db == s.db && x in s.db.files && x in s.effects && x in s'.effects
    && (forall y :: y in s.effects && y != x ==> y in s'.effects && s'.effects[y] == s.effects[y])
    && (forall y :: y in s'.effects && y != x ==> y in s.effects)
    && (forall y :: y in s.results && y != x ==> y in s'.results && s'.results[y] == s.results[y])
    && (forall y :: y in s'.results && y != x ==> y in s.results)
    && (forall y :: y in s.repairs && y != x ==> y in s'.repairs && s'.repairs[y] == s.repairs[y])
    && (forall y :: y in s'.repairs && y != x ==> y in s.repairs)
    && (forall y :: y != x ==> (y in s'.late <==> y in s.late))
    && (s'.phase == s.phase || ((s.phase.Executing? || s.phase.Inspecting?) ==> s.phase.x == x))
  }

  lemma OtherRow(s: System, s': System, x: Id, y: Id)
    requires OnlyAt(s, s', x) && y != x && y in s.db.files && y in s.effects && RowInv(s, y)
    ensures y in s'.effects && RowInv(s', y)
  {
    hide Excused, RepairFits, RowFits;
  }

  /** Such a change keeps the invariant if it keeps it at that row and for that phase. */
  lemma RowsApart(s: System, s': System, x: Id)
    requires Inv(s) && OnlyAt(s, s', x) && RowInv(s', x) && PhaseInv(s')
    ensures Inv(s')
  {
    hide RowInv, FileRules, PhaseInv, OnlyAt;
    OnlyAtKeys(s, s', x);
    forall y | y in s'.db.files ensures y in s'.effects && RowInv(s', y) {
      hide RowInv, FileRules, PhaseInv, OnlyAt;
      if y != x { OtherRow(s, s', x, y); }
    }
  }

  lemma OnlyAtKeys(s: System, s': System, x: Id)
    requires Inv(s) && OnlyAt(s, s', x)
    ensures s'.db == s.db && s'.effects.Keys == s.effects.Keys
    ensures s'.repairs.Keys <= s.db.files.Keys && s'.results.Keys <= s.db.files.Keys && s'.late <= s.db.files.Keys
  {
    hide RowInv, FileRules, PhaseInv;
  }

  lemma RowOf(s: System, x: Id)
    requires Inv(s) && x in s.db.files
    ensures x in s.effects && RowInv(s, x)
  {
    hide RowInv, FileRules, PhaseInv;
  }

  lemma OutsideKeepsRow(s: System, x: Id, move: FE.Event)
    requires x in s.db.files && x in s.effects && RowInv(s, x) && FE.ByHelper(move) && !move.Crash?
    ensures RowInv(Touch(s, x, move), x)
  {
    hide FE.Step, FE.Reachable;
    OutsideKeepsFacts(s.effects[x], move);
  }

  lemma OutsideKeepsPhase(s: System, x: Id, move: FE.Event)
    requires x in s.effects && PhaseInv(s) && FE.Reachable(s.effects[x]) && FE.ByHelper(move) && !move.Crash?
    ensures PhaseInv(Touch(s, x, move))
  {
    hide FE.Step, FE.Reachable;
    OutsideKeepsFacts(s.effects[x], move);
  }

  lemma TouchIsLocal(s: System, x: Id, move: FE.Event)
    requires x in s.db.files && x in s.effects
    ensures OnlyAt(s, Touch(s, x, move), x)
  {
    hide FE.Step;
  }

  lemma OutsideKeepsInv(s: System, x: Id, move: FE.Event)
    requires Inv(s) && Enabled(s, Outside(x, move))
    ensures Inv(Do(s, Outside(x, move)))
  {
    hide FE.Step, FE.Reachable, RowInv, FileRules, PhaseInv, OnlyAt, FE.ByHelper;
    assert x in s.db.files;
    RowOf(s, x);
    ReachableRow(s, x);
    OutsideKeepsRow(s, x, move);
    OutsideKeepsPhase(s, x, move);
    TouchIsLocal(s, x, move);
    RowsApart(s, Touch(s, x, move), x);
  }

  lemma ReachableRow(s: System, x: Id)
    requires x in s.db.files && x in s.effects && RowInv(s, x)
    ensures FE.Reachable(s.effects[x])
  {
  }

  lemma CrashLeavesDurable(e: FE.State)
    requires FE.Reachable(e)
    ensures FE.Reachable(FE.Step(e, FE.Crash))
    ensures FE.Step(e, FE.Crash) == e.(call := FE.NoCall, probe := FE.NoProbe)
  {
    FE.StepIsReachable(e, FE.Crash);
  }

  lemma CrashRow(s: System, s': System, y: Id)
    requires y in s.db.files && y in s.effects && RowInv(s, y) && s'.db == s.db
    requires y in s'.effects && s'.effects[y] == FE.Step(s.effects[y], FE.Crash)
    requires s'.results == s.results && s'.late == s.late && s'.repairs == map[]
    ensures RowInv(s', y)
  {
    hide FE.Step, FE.Reachable, RepairFits;
    CrashLeavesDurable(s.effects[y]);
  }

  lemma CrashShape(s: System)
    ensures var s' := Do(s, Crash);
            && s' == s.(phase := Booting, repairs := map[], effects := s'.effects)
            && s'.effects.Keys == s.effects.Keys
            && forall y :: y in s.effects ==> s'.effects[y] == FE.Step(s.effects[y], FE.Crash)
  {
    hide FE.Step;
    assert Enabled(s, Crash);
  }

  lemma CrashKeepsInv(s: System)
    requires Inv(s)
    ensures Inv(Do(s, Crash))
  {
    hide RowInv, FileRules, FE.Step, Do;
    var s' := Do(s, Crash);
    CrashShape(s);
    forall y | y in s'.db.files ensures RowInv(s', y) {
      CrashRow(s, s', y);
    }
  }

  lemma StartupMovesRows(d: Db)
    ensures RecoverStartup(d).files.Keys == d.files.Keys
    ensures forall y :: y in d.files ==>
      var to := RecoverStartup(d).files[y].state;
      || to == d.files[y].state
      || (d.files[y].state.Dispatching? && to.Uncertain?)
      || (d.files[y].state.Queued? && to.Failed?)
  {
  }

  /** A queued row that fails as a dependent, or a dispatching row that becomes uncertain. */
  lemma RowMayMove(s: System, s': System, y: Id)
    requires y in s.db.files && y in s.effects && RowInv(s, y)
    requires y in s'.db.files && s' == s.(db := s'.db, phase := s'.phase)
    requires s'.phase == s.phase || (s.phase.Booting? && s'.phase.Resting?)
    requires var from, to := s.db.files[y].state, s'.db.files[y].state;
             to == from || (from.Dispatching? && to.Uncertain? && y !in s.repairs) || (from.Queued? && to.Failed?)
    ensures RowInv(s', y)
  {
    FE.ReachableKeepsInv(s.effects[y]);
  }

  lemma RowsMayMove(s: System, s': System)
    requires Inv(s) && FileRules(s'.db) && s' == s.(db := s'.db, phase := s'.phase)
    requires s.phase.Booting? && s'.phase.Resting? && s'.db.files.Keys == s.db.files.Keys
    requires forall y :: y in s.db.files ==>
               var from, to := s.db.files[y].state, s'.db.files[y].state;
               to == from || (from.Dispatching? && to.Uncertain?) || (from.Queued? && to.Failed?)
    ensures Inv(s')
  {
    hide RowInv, FileRules;
    forall y | y in s'.db.files ensures RowInv(s', y) {
      RowMayMove(s, s', y);
    }
  }

  lemma StartupKeepsInv(s: System)
    requires Inv(s) && s.phase.Booting?
    ensures Inv(Do(s, Startup))
  {
    hide Inv, FileRules, RecoverStartup;
    RecoverStartupKeeps(s.db) by { RulesOf(s); }
    StartupMovesRows(s.db);
    RowsMayMove(s, Do(s, Startup));
  }

  /** Settling one row: it alone ends, and queued dependents of an uncertain row fail. */
  lemma SettleMovesRows(d: Db, x: Id, state: FileState, epoch: nat)
    requires FileRules(d) && x in d.files && Settles(state)
    requires d.files[x].state.Dispatching? && epoch != 0 ==> epoch == d.files[x].epoch
    ensures var d' := Settle(d, x, state, epoch);
            && d'.files.Keys == d.files.Keys
            && d'.files[x].state ==
               (if d.files[x].state.Queued? || d.files[x].state.Dispatching? then state else d.files[x].state)
            && (forall y :: y in d.files ==>
                  && d'.files[y].epoch == d.files[y].epoch
                  && (y == x || d'.files[y].state == d.files[y].state
                      || (d.files[y].state.Queued? && d'.files[y].state.Failed?)))
  {
    if d.files[x].state.Queued? { assert !Unresolved(d.files[x]); }
  }

  lemma SettledRow(s: System, s': System, x: Id)
    requires x in s.db.files && x in s.effects && RowInv(s, x) && x in s.repairs && x in s'.db.files
    requires s' == s.(db := s'.db)
    requires var from, to := s.db.files[x].state, s'.db.files[x].state;
             to == if from.Queued? || from.Dispatching? then s.repairs[x] else from
    ensures RowInv(s', x)
  {
    hide FE.Reachable, Excused;
  }

  lemma RepairSettles(s: System, x: Id)
    requires x in s.db.files && x in s.effects && RowInv(s, x) && x in s.repairs
    ensures Settles(s.repairs[x]) && RepairKept(s, x)
  {
    hide FE.Reachable, Excused, RowFits;
  }

  lemma SettleRowMeans(s: System, x: Id, epoch: nat)
    requires FileRules(s.db) && x in s.repairs && x in s.db.files && RepairKept(s, x)
    requires epoch != 0 ==> s.db.files[x].epoch == epoch
    ensures var d := SettleRow(s, x, epoch);
            && FileRules(d) && d.files.Keys == s.db.files.Keys
            && d.files[x].state == (if s.db.files[x].state.Queued? || s.db.files[x].state.Dispatching?
                                    then s.repairs[x] else s.db.files[x].state)
            && (forall y :: y in s.db.files ==>
                  && d.files[y].epoch == s.db.files[y].epoch
                  && (y == x || d.files[y].state == s.db.files[y].state
                      || (s.db.files[y].state.Queued? && d.files[y].state.Failed?)))
  {
    hide FileRules, Settle;
    LinkedRow(s.db, x);
    EveryTxKeepsFiles(s.db, SettleTx(x, s.repairs[x], epoch));
    SettleMovesRows(s.db, x, s.repairs[x], epoch);
  }

  lemma LinkedRow(d: Db, x: Id)
    requires FileRules(d) && x in d.files
    ensures d.files[x].workspace in d.workspaces
  {
    hide ReservationExact, RowsCoherent, GitAlone;
  }

  /** A repair settles, and an uncertain one never belongs to a queued row. */
  predicate RepairKept(s: System, x: Id)
    requires x in s.repairs && x in s.db.files
  {
    Settles(s.repairs[x]) && !(s.repairs[x].Uncertain? && s.db.files[x].state.Queued?)
  }

  lemma SettleKeepsRows(s: System, x: Id, epoch: nat)
    requires Inv(s) && x in s.repairs
    requires x in s.db.files && (epoch != 0 ==> s.db.files[x].epoch == epoch)
    ensures var s' := s.(db := SettleRow(s, x, epoch));
            && FileRules(s'.db) && s'.db.files.Keys == s.db.files.Keys && s'.effects.Keys == s'.db.files.Keys
            && (forall y :: y in s'.db.files ==> s'.db.files[y].epoch == s.db.files[y].epoch)
            && (forall y :: y in s'.db.files ==> RowInv(s', y))
  {
    hide Inv, RowInv, FileRules, SettleRow;
    var s' := s.(db := SettleRow(s, x, epoch));
    RowOf(s, x);
    RulesOf(s);
    RepairSettles(s, x);
    SettleRowMeans(s, x, epoch);
    forall y | y in s'.db.files ensures RowInv(s', y) {
      RowOf(s, y);
      if y == x { SettledRow(s, s', x); } else { RowMayMove(s, s', y); }
    }
  }

  /** Memory and phase of a row whose settlement was tried. */
  lemma TriedRow(s: System, s': System, y: Id)
    requires y in s.db.files && y in s.effects && RowInv(s, y) && s'.db == s.db && s'.effects == s.effects
    requires s'.results == s.results && s'.late == s.late
    requires y in s'.repairs ==> y in s.repairs && s'.repairs[y] == s.repairs[y]
    requires s'.phase == s.phase || (!s.phase.Executing? && !s.phase.Inspecting?)
    ensures RowInv(s', y)
  {
    hide FE.Reachable, Excused, RowFits, RepairFits;
  }

  lemma TriedKeepsInv(s: System, s': System)
    requires FileRules(s.db) && s.effects.Keys == s.db.files.Keys
    requires s.repairs.Keys <= s.db.files.Keys && s.results.Keys <= s.db.files.Keys && s.late <= s.db.files.Keys
    requires forall y :: y in s.db.files ==> RowInv(s, y)
    requires s'.db == s.db && s'.effects == s.effects && s'.results == s.results && s'.late == s.late
    requires forall y :: y in s'.repairs ==> y in s.repairs && s'.repairs[y] == s.repairs[y]
    requires s.phase.Resting? || s.phase.Settling?
    requires PhaseInv(s')
    ensures Inv(s')
  {
    hide FileRules, PhaseInv, RowInv;
    forall y | y in s'.db.files ensures RowInv(s', y) { TriedRow(s, s', y); }
  }

  lemma RepairKeepsInv(s: System, x: Id, committed: bool, replied: bool)
    requires Inv(s) && Enabled(s, Repair(x, committed, replied))
    ensures Inv(Do(s, Repair(x, committed, replied)))
  {
    hide RowInv, FileRules, SettleRow;
    var s' := Do(s, Repair(x, committed, replied));
    if committed { SettleKeepsRows(s, x, s.db.files[x].epoch); }
    TriedKeepsInv(s.(db := s'.db), s');
  }

  lemma SettleNowKeepsInv(s: System, committed: bool, replied: bool, again: bool)
    requires Inv(s) && Enabled(s, SettleNow(committed, replied, again))
    ensures Inv(Do(s, SettleNow(committed, replied, again)))
  {
    hide Inv, RowInv, FileRules, SettleRow, PhaseInv, Do;
    var d := if committed then SettleRow(s, s.phase.x, s.phase.epoch) else s.db;
    SettlingRows(s, d, committed);
    SettlingPhase(s, d, committed, replied, again);
    SettleNowShape(s, committed, replied, again);
    TriedKeepsInv(s.(db := d), Do(s, SettleNow(committed, replied, again)));
  }

  lemma SettleNowShape(s: System, committed: bool, replied: bool, again: bool)
    requires Enabled(s, SettleNow(committed, replied, again))
    ensures var s' := Do(s, SettleNow(committed, replied, again));
            && s' == s.(db := s'.db, repairs := s'.repairs, phase := s'.phase)
            && s'.db == (if committed then SettleRow(s, s.phase.x, s.phase.epoch) else s.db)
            && s'.repairs == (if replied then s.repairs - {s.phase.x} else s.repairs)
  {
    hide SettleRow;
  }

  lemma SettlingRows(s: System, d: Db, committed: bool)
    requires Inv(s) && s.phase.Settling? && s.phase.x in s.repairs
    requires d == if committed then SettleRow(s, s.phase.x, s.phase.epoch) else s.db
    ensures FileRules(d) && d.files.Keys == s.db.files.Keys && s.effects.Keys == d.files.Keys
    ensures s.repairs.Keys <= d.files.Keys && s.results.Keys <= d.files.Keys && s.late <= d.files.Keys
    ensures forall y :: y in d.files ==> d.files[y].epoch == s.db.files[y].epoch
    ensures forall y :: y in d.files ==> RowInv(s.(db := d), y)
  {
    hide RowInv, FileRules, SettleRow;
    if committed { SettleKeepsRows(s, s.phase.x, s.phase.epoch); }
    assert s.(db := s.db) == s;
  }

  lemma SettlingPhase(s: System, d: Db, committed: bool, replied: bool, again: bool)
    requires Inv(s) && Enabled(s, SettleNow(committed, replied, again)) && d.files.Keys == s.db.files.Keys
    requires forall y :: y in d.files ==> d.files[y].epoch == s.db.files[y].epoch
    requires d == if committed then SettleRow(s, s.phase.x, s.phase.epoch) else s.db
    ensures PhaseInv(Do(s, SettleNow(committed, replied, again)))
  {
    hide RowInv, FileRules, SettleRow;
  }

  lemma ClaimFileMoves(d: Db, x: Id)
    requires FileRules(d) && CanClaimFile(d, x) && d.files[x].state.Queued?
    ensures var d' := ClaimFile(d, x);
            && FileRules(d') && d'.files.Keys == d.files.Keys
            && d'.files[x].state.Dispatching? && d'.files[x].epoch != 0
            && (forall y :: y in d.files && y != x ==> d'.files[y] == d.files[y])
  {
    ClaimFileKeeps(d, x);
  }

  /** A queued row's effect has not begun. */
  lemma QueuedIsUntouched(s: System, x: Id)
    requires x in s.db.files && x in s.effects && RowInv(s, x) && s.db.files[x].state.Queued?
    ensures FE.Reachable(s.effects[x]) && Untouched(s.effects[x]) && x !in s.late
    ensures s.effects[x].publications == [] && s.effects[x].helper.Absent?
  {
    hide FE.Reachable;
    FE.ReachableKeepsInv(s.effects[x]);
  }

  lemma IdleRow(s: System, x: Id)
    requires x in s.db.files && x in s.effects && RowInv(s, x) && !s.phase.Executing? && !s.phase.Inspecting?
    ensures s.effects[x].call.NoCall? && s.effects[x].probe.NoProbe?
  {
    hide FE.Reachable, RowFits, RepairFits;
  }

  /** The claim is over without a call: the row is as before, or dispatching under its new epoch. */
  function Claimed(s: System, x: Id, d: Db, epoch: nat): (s': System) {
    s.(db := d, phase := Settling(x, epoch), repairs := s.repairs[x := Failed])
  }

  lemma ClaimedRow(s: System, x: Id, d: Db, epoch: nat)
    requires x in s.db.files && x in s.effects && RowInv(s, x) && s.db.files[x].state.Queued?
    requires !s.phase.Executing? && !s.phase.Inspecting?
    requires x in d.files && (d.files[x].state.Dispatching? || d.files[x].state.Queued?)
    ensures RowInv(Claimed(s, x, d, epoch), x)
  {
    hide FE.Reachable;
    QueuedIsUntouched(s, x);
    IdleRow(s, x);
  }

  lemma UnclaimedRow(s: System, x: Id, d: Db, epoch: nat, y: Id)
    requires y in s.db.files && y in s.effects && RowInv(s, y) && y in d.files && d.files[y] == s.db.files[y] && y != x
    requires !s.phase.Executing? && !s.phase.Inspecting?
    ensures RowInv(Claimed(s, x, d, epoch), y)
  {
    hide FE.Reachable, RowFits, RepairFits;
  }

  lemma ClaimedKeepsInv(s: System, x: Id, d: Db, epoch: nat)
    requires Inv(s) && s.phase.Scanning? && x in s.phase.todo
    requires FileRules(d) && d.files.Keys == s.db.files.Keys
    requires x in d.files && (d.files[x].state.Dispatching? || d.files[x].state.Queued?)
    requires forall y :: y in d.files && y != x ==> d.files[y] == s.db.files[y]
    requires epoch != 0 ==> d.files[x].epoch == epoch
    ensures Inv(Claimed(s, x, d, epoch))
  {
    hide RowInv, FileRules;
    forall y | y in d.files ensures RowInv(Claimed(s, x, d, epoch), y) {
      RowOf(s, y);
      if y == x { ClaimedRow(s, x, d, epoch); } else { UnclaimedRow(s, x, d, epoch, y); }
    }
  }

  lemma BeginFacts(e: FE.State, x: Id)
    requires FE.Reachable(e) && Untouched(e) && e.call.NoCall? && e.probe.NoProbe?
    ensures FE.Reachable(FE.Step(e, FE.Begin(x)))
    ensures FE.Step(e, FE.Begin(x)) == e.(call := FE.Reading, asked := x)
  {
    FE.StepIsReachable(e, FE.Begin(x));
  }

  lemma ClaimHeardKeepsInv(s: System, x: Id)
    requires Inv(s) && s.phase.Scanning? && x in s.phase.todo && x in s.effects && CanClaimFile(s.db, x)
    ensures Inv(DoClaim(s, x, true, true, true))
  {
    var e := s.effects[x];
    var d := ClaimFile(s.db, x);
    ScannedRow(s, x);
    QueuedIsUntouched(s, x);
    IdleRow(s, x);
    ClaimFileMoves(s.db, x);
    ClaimedKeepsInv(s, x, d, 0);
    BeginFacts(e, x);
    ClaimBegins(s, x);
    hide Inv, FE.Step, FE.Reachable, RowInv, FileRules, ClaimFile, CanClaimFile, DoClaim, PhaseInv;
    BegunKeepsInv(Claimed(s, x, d, 0), x, e.(call := FE.Reading, asked := x));
  }

  lemma ClaimBegins(s: System, x: Id)
    requires x in s.effects && CanClaimFile(s.db, x) && s.repairs == map[] && x in ClaimFile(s.db, x).files
    requires FE.Step(s.effects[x], FE.Begin(x)) == s.effects[x].(call := FE.Reading, asked := x)
    ensures DoClaim(s, x, true, true, true) ==
            Begun(Claimed(s, x, ClaimFile(s.db, x), 0), x, s.effects[x].(call := FE.Reading, asked := x))
  {
    hide FE.Step, ClaimFile, CanClaimFile;
  }

  lemma ScannedRow(s: System, x: Id)
    requires Inv(s) && s.phase.Scanning? && x in s.phase.todo
    ensures x in s.db.files && x in s.effects && s.db.files[x].state.Queued? && RowInv(s, x) && s.repairs == map[]
  {
    hide RowInv, FileRules;
  }

  function Begun(s: System, x: Id, e: FE.State): (s': System)
    requires x in s.db.files
  {
    s.(effects := s.effects[x := e], phase := Executing(x, s.db.files[x].epoch), repairs := map[])
  }

  lemma BegunRow(s: System, x: Id, e: FE.State)
    requires x in s.db.files && s.db.files[x].state.Dispatching? && FE.Reachable(e) && e.probe.NoProbe?
    ensures RowInv(Begun(s, x, e), x)
  {
    hide FE.Reachable;
  }

  lemma BegunKeepsInv(s: System, x: Id, e: FE.State)
    requires Inv(s) && s.phase == Settling(x, 0) && s.repairs.Keys == {x} && x !in s.late && x in s.effects
    requires s.db.files[x].state.Dispatching? && s.db.files[x].epoch != 0
    requires FE.Reachable(e) && e.probe.NoProbe? && !e.call.NoCall?
    ensures Inv(Begun(s, x, e))
  {
    hide RowInv, FileRules, FE.Reachable;
    BegunRow(s, x, e);
    assert forall y :: y in s.repairs ==> y in s.repairs.Keys;
    RowsApart(s, Begun(s, x, e), x);
  }

  lemma ClaimKeepsInv(s: System, committed: bool, replied: bool, built: bool)
    requires Inv(s) && Enabled(s, Claim(committed, replied, built))
    ensures Inv(Do(s, Claim(committed, replied, built)))
  {
    hide Inv, DoClaim, CanClaimFile;
    assert s.phase.todo[0] in s.phase.todo;
    ClaimingKeepsInv(s, s.phase.todo[0], committed, replied, built);
  }

  lemma ClaimingKeepsInv(s: System, x: Id, committed: bool, replied: bool, built: bool)
    requires Inv(s) && s.phase.Scanning? && x in s.phase.todo && x in s.effects
    requires (built ==> replied) && (replied ==> committed) && (committed ==> CanClaimFile(s.db, x))
    ensures Inv(DoClaim(s, x, committed, replied, built))
  {
    hide Inv, RowInv, FileRules, ClaimFile, CanClaimFile, FE.Step;
    ScannedRow(s, x);
    RulesOf(s);
    if committed { ClaimFileMoves(s.db, x); }
    if built { ClaimHeardKeepsInv(s, x); }
    else {
      var d := if committed then ClaimFile(s.db, x) else s.db;
      ClaimedKeepsInv(s, x, d, if replied then d.files[x].epoch else 0);
    }
  }

  lemma RulesOf(s: System)
    requires Inv(s)
    ensures FileRules(s.db) && s.effects.Keys == s.db.files.Keys
  {
    hide FileRules, RowInv, PhaseInv;
  }

  /** Moves of the running call keep the row dispatching and the call in flight. */
  lemma CallMoveFacts(e: FE.State, move: FE.Event)
    requires FE.Reachable(e) && CallMove(move) && !e.call.NoCall?
    ensures FE.Reachable(FE.Step(e, move))
    ensures !FE.Step(e, move).call.NoCall? && FE.Step(e, move).probe == e.probe
  {
    FE.StepIsReachable(e, move);
  }

  lemma CallKeepsRow(s: System, x: Id, move: FE.Event)
    requires s.phase.Executing? && s.phase.x == x && x in s.db.files && x in s.effects && RowInv(s, x)
    requires s.db.files[x].state.Dispatching? && x !in s.repairs && CallMove(move) && !s.effects[x].call.NoCall?
    ensures RowInv(Touch(s, x, move), x) && !Touch(s, x, move).effects[x].call.NoCall?
  {
    hide FE.Step, FE.Reachable;
    CallMoveFacts(s.effects[x], move) by { ReachableRow(s, x); }
  }

  lemma ExecutingRow(s: System)
    requires Inv(s) && s.phase.Executing?
    ensures var x := s.phase.x;
            && x in s.db.files && x in s.effects && RowInv(s, x) && s.db.files[x].state.Dispatching?
            && s.repairs == map[] && !s.effects[x].call.NoCall? && x !in s.late
            && s.db.files[x].epoch == s.phase.epoch
  {
    hide RowInv, FileRules;
  }

  lemma CallKeepsInv(s: System, move: FE.Event)
    requires Inv(s) && Enabled(s, Call(move))
    ensures Inv(Do(s, Call(move)))
  {
    hide RowInv, FileRules, FE.Step, OnlyAt, CallMove;
    ExecutingRow(s);
    CallKeepsRow(s, s.phase.x, move);
    TouchIsLocal(s, s.phase.x, move);
    RowsApart(s, Touch(s, s.phase.x, move), s.phase.x);
  }

  /** The dispatcher's verdict on a finished call fits what the call left behind. */
  lemma VerdictFits(e: FE.State, retired: bool)
    requires FE.Reachable(e) && e.call.Done?
    ensures e.call.outcome.Returned? ==> e.receipt == FE.Completed(e.call.outcome.result)
    ensures e.call.outcome.Failed? && Verdict(retired, e.sent, e.call.outcome.rejected).Failed? ==>
      Excused(FE.Step(e, FE.OutsideRetire), e.call.outcome.late)
  {
    FE.ReachableKeepsInv(e);
  }

  lemma EndFacts(e: FE.State, retired: bool)
    requires FE.Reachable(e) && e.call.Done?
    ensures var e1 := if retired then FE.Step(e, FE.OutsideRetire) else e;
            && e1 == (if retired then e.(helper := FE.Absent) else e)
            && FE.Step(e1, FE.End) == e1.(call := FE.NoCall)
            && FE.Reachable(FE.Step(e1, FE.End))
  {
    FE.StepIsReachable(e, FE.OutsideRetire);
    FE.StepIsReachable(if retired then FE.Step(e, FE.OutsideRetire) else e, FE.End);
  }

  /** The call is over: its repair is in memory, and only `Failed` may be excused as late. */
  function Concluded(s: System, x: Id, e: FE.State, state: FileState,
                     results: map<Id, FE.Result>, late: set<Id>): (s': System)
    requires s.phase.Executing?
  {
    s.(effects := s.effects[x := e], phase := Settling(x, s.phase.epoch), repairs := s.repairs[x := state],
       results := results, late := late)
  }

  lemma ConcludedRow(s: System, x: Id, e: FE.State, state: FileState, results: map<Id, FE.Result>, late: set<Id>)
    requires s.phase.Executing? && x in s.db.files && s.db.files[x].state.Dispatching? && Settles(state)
    requires FE.Reachable(e) && e.call.NoCall? && e.probe.NoProbe?
    requires state.Succeeded? ==> Confirmed(e, results, x)
    requires state.Failed? ==> Excused(e, x in late)
    ensures RowInv(Concluded(s, x, e, state, results, late), x)
  {
    hide FE.Reachable, Excused, Confirmed;
  }

  lemma ConcludedKeepsInv(s: System, x: Id, e: FE.State, state: FileState, results: map<Id, FE.Result>, late: set<Id>)
    requires Inv(s) && s.phase.Executing? && s.phase.x == x && Settles(state)
    requires FE.Reachable(e) && e.call.NoCall? && e.probe.NoProbe?
    requires forall y :: y != x ==> (y in results <==> y in s.results) && (y in results ==> results[y] == s.results[y])
    requires forall y :: y != x ==> (y in late <==> y in s.late)
    requires state.Succeeded? ==> Confirmed(e, results, x)
    requires state.Failed? ==> Excused(e, x in late)
    ensures Inv(Concluded(s, x, e, state, results, late))
  {
    hide RowInv, FileRules, FE.Reachable, Confirmed, Excused;
    ExecutingRow(s);
    ConcludedRow(s, x, e, state, results, late);
    RowsApart(s, Concluded(s, x, e, state, results, late), x);
  }

  lemma EndedCall(s: System)
    requires Inv(s) && s.phase.Executing? && s.phase.x in s.effects && s.effects[s.phase.x].call.Done?
    ensures var x := s.phase.x;
            && x in s.db.files && FE.Reachable(s.effects[x]) && s.effects[x].probe.NoProbe? && x !in s.late
  {
    hide Inv, FE.Reachable, RowFits, RepairFits;
    ExecutingRow(s);
  }

  lemma ReturnedShape(s: System, x: Id, retired: bool)
    requires s.phase.Executing? && x in s.effects && FE.Reachable(s.effects[x])
    requires s.effects[x].call.Done? && s.effects[x].call.outcome.Returned?
    ensures DoCallEnded(s, x, s.phase.epoch, retired) ==
            Concluded(s, x, s.effects[x].(call := FE.NoCall), Succeeded,
                      s.results[x := s.effects[x].call.outcome.result], s.late)
  {
    hide FE.Step, FE.Reachable;
    EndFacts(s.effects[x], false);
  }

  lemma ReturnedKeepsInv(s: System, retired: bool)
    requires Inv(s) && Enabled(s, CallEnded(retired)) && s.effects[s.phase.x].call.outcome.Returned?
    ensures Inv(DoCallEnded(s, s.phase.x, s.phase.epoch, retired))
  {
    hide Inv, DoCallEnded, FE.Step, FE.Reachable, Excused, Concluded;
    var x := s.phase.x;
    EndedCall(s);
    var e := s.effects[x];
    VerdictFits(e, retired);
    EndFacts(e, false);
    ReturnedShape(s, x, retired);
    ConcludedKeepsInv(s, x, e.(call := FE.NoCall), Succeeded, s.results[x := e.call.outcome.result], s.late);
  }

  lemma ThrownFits(e: FE.State, retired: bool, late: bool)
    requires FE.Reachable(e) && e.call.Done? && e.call.outcome.Failed? && !late
    requires Verdict(retired, e.sent, e.call.outcome.rejected).Failed?
    ensures retired && Excused(e.(helper := FE.Absent, call := FE.NoCall), e.call.outcome.late)
  {
    VerdictFits(e, retired);
    EndFacts(e, true);
  }

  lemma ThrownShape(s: System, x: Id, retired: bool, e': FE.State)
    requires s.phase.Executing? && x in s.effects && s.effects[x].call.Done? && s.effects[x].call.outcome.Failed?
    requires FE.Step(if retired then FE.Step(s.effects[x], FE.OutsideRetire) else s.effects[x], FE.End) == e'
    ensures var state := Verdict(retired, s.effects[x].sent, s.effects[x].call.outcome.rejected);
            var late := if state.Failed? && s.effects[x].call.outcome.late then s.late + {x} else s.late;
            DoCallEnded(s, x, s.phase.epoch, retired) == Concluded(s, x, e', state, s.results, late)
  {
    var s1 := if retired then Touch(s, x, FE.OutsideRetire) else s;
    assert s1.effects[x := e'] == s.effects[x := e'];
  }

  lemma ThrownKeepsInv(s: System, retired: bool)
    requires Inv(s) && Enabled(s, CallEnded(retired)) && s.effects[s.phase.x].call.outcome.Failed?
    ensures Inv(DoCallEnded(s, s.phase.x, s.phase.epoch, retired))
  {
    hide Inv, DoCallEnded, FE.Step, FE.Reachable;
    EndedCall(s);
    CallIsThrown(s, s.phase.x, s.effects[s.phase.x], retired);
  }

  lemma CallIsThrown(s: System, x: Id, e: FE.State, retired: bool)
    requires Inv(s) && s.phase.Executing? && s.phase.x == x && x in s.effects && s.effects[x] == e
    requires e.call.Done? && e.call.outcome.Failed? && FE.Reachable(e) && e.probe.NoProbe? && x !in s.late
    ensures Inv(DoCallEnded(s, x, s.phase.epoch, retired))
  {
    hide Inv, DoCallEnded, Concluded, FE.Step, FE.Reachable, Excused, Confirmed;
    var state := Verdict(retired, e.sent, e.call.outcome.rejected);
    var e' := (if retired then e.(helper := FE.Absent) else e).(call := FE.NoCall);
    var late := if state.Failed? && e.call.outcome.late then s.late + {x} else s.late;
    if state.Failed? { ThrownFits(e, retired, false); }
    EndFacts(e, retired);
    ThrownShape(s, x, retired, e');
    ConcludedKeepsInv(s, x, e', state, s.results, late);
  }

  lemma CallEndedKeepsInv(s: System, retired: bool)
    requires Inv(s) && Enabled(s, CallEnded(retired))
    ensures Inv(Do(s, CallEnded(retired)))
  {
    if s.effects[s.phase.x].call.outcome.Returned? { ReturnedKeepsInv(s, retired); }
    else { ThrownKeepsInv(s, retired); }
  }

  // ----- inspection ---------------------------------------------------------------------------

  /** An inspection's own moves never touch what rows and repairs rely on. */
  lemma ProbeFacts(e: FE.State, move: FE.Event)
    requires FE.Reachable(e) && FE.ByProbe(move)
    ensures FE.Reachable(FE.Step(e, move)) && FE.Step(e, move).call == e.call
  {
    FE.StepIsReachable(e, move);
  }

  lemma InspectedRow(s: System, s': System, x: Id, move: FE.Event)
    requires x in s.db.files && x in s.effects && RowInv(s, x) && s.db.files[x].state.Uncertain?
    requires FE.ByProbe(move) && x !in s.repairs && !s.phase.Executing?
    requires s' == Touch(s.(phase := s'.phase), x, move)
    requires (s'.phase.Inspecting? && s'.phase.x == x) || (s'.phase.Resting? && s'.effects[x].probe.NoProbe?)
    ensures RowInv(s', x)
  {
    hide FE.Step, FE.Reachable;
    ReachableRow(s, x);
    ProbeFacts(s.effects[x], move);
  }

  lemma InspectShape(s: System, x: Id)
    requires Enabled(s, Inspect(x))
    ensures Do(s, Inspect(x)) == Touch(s.(phase := Inspecting(x)), x, FE.ProbeBegin(x))
    ensures s.phase.Resting? && s.repairs == map[] && x in s.effects
  {
    hide FE.Step, CanInspect;
  }

  lemma InspectKeepsInv(s: System, x: Id)
    requires Inv(s) && Enabled(s, Inspect(x))
    ensures Inv(Do(s, Inspect(x)))
  {
    hide Inv, RowInv, FE.Step, OnlyAt, Enabled, Do;
    InspectShape(s, x);
    InspectedIsUncertain(s, x);
    RowOf(s, x);
    var s' := Touch(s.(phase := Inspecting(x)), x, FE.ProbeBegin(x));
    InspectedRow(s, s', x, FE.ProbeBegin(x));
    InspectionIsLocal(s, x, Inspecting(x), FE.ProbeBegin(x));
    RowsApart(s, s', x);
  }

  lemma InspectedIsUncertain(s: System, x: Id)
    requires Inv(s) && Enabled(s, Inspect(x))
    ensures x in s.db.files && s.db.files[x].state.Uncertain?
  {
    hide RowInv;
  }

  lemma InspectionIsLocal(s: System, x: Id, phase: Phase, move: FE.Event)
    requires x in s.db.files && x in s.effects
    requires !s.phase.Executing? && (s.phase.Inspecting? ==> s.phase.x == x)
    ensures OnlyAt(s, Touch(s.(phase := phase), x, move), x)
  {
    hide FE.Step;
  }

  lemma InspectingRow(s: System)
    requires Inv(s) && s.phase.Inspecting?
    ensures var x := s.phase.x;
            x in s.db.files && x in s.effects && RowInv(s, x) && s.db.files[x].state.Uncertain? && s.repairs == map[]
  {
    hide RowInv, FileRules;
  }

  lemma ProbeMoveKeepsInv(s: System, move: FE.Event)
    requires Inv(s) && Enabled(s, ProbeMove(move))
    ensures Inv(Do(s, ProbeMove(move)))
  {
    hide RowInv, FileRules, FE.Step, OnlyAt;
    var x := s.phase.x;
    InspectingRow(s);
    InspectedRow(s, Touch(s, x, move), x, move);
    InspectionIsLocal(s, x, s.phase, move);
    RowsApart(s, Touch(s, x, move), x);
  }

  lemma FinishMovesNoRow(d: Db, x: Id)
    requires FileRules(d)
    ensures SameRows(d, Apply(d, FinishInspectionTx(x))) && FileRules(Apply(d, FinishInspectionTx(x)))
  {
    hide FileRules;
    EveryTxKeepsFiles(d, FinishInspectionTx(x));
  }

  lemma RefusalMovesNoRow(d: Db, x: Id)
    requires FileRules(d)
    ensures SameRows(d, FailInspection(d, x)) && FileRules(FailInspection(d, x))
  {
    hide FileRules;
    EveryTxKeepsFiles(d, FailInspectionTx(x));
  }

  predicate SameRows(d: Db, d': Db) {
    d'.files.Keys == d.files.Keys
    && forall y :: y in d.files ==> d'.files[y].state == d.files[y].state && d'.files[y].epoch == d.files[y].epoch
  }

  /** What an inspection leaves in the database moves no row. */
  lemma InspectionMovesNoRow(s: System, committed: bool, refused: bool)
    requires FileRules(s.db) && s.phase.Inspecting?
    ensures SameRows(s.db, Noted(s, committed, refused)) && FileRules(Noted(s, committed, refused))
  {
    hide FileRules, Apply, FailInspection;
    if committed { FinishMovesNoRow(s.db, s.phase.x); }
    if refused { RefusalMovesNoRow(if committed then Apply(s.db, FinishInspectionTx(s.phase.x)) else s.db, s.phase.x); }
  }

  function Noted(s: System, committed: bool, refused: bool): (d: Db)
    requires s.phase.Inspecting?
  {
    var d := if committed then Apply(s.db, FinishInspectionTx(s.phase.x)) else s.db;
    if refused then FailInspection(d, s.phase.x) else d
  }

  lemma NotedRow(s: System, d: Db, y: Id)
    requires y in s.db.files && y in s.effects && RowInv(s, y) && y in d.files
    requires d.files[y].state == s.db.files[y].state
    ensures RowInv(s.(db := d), y)
  {
    hide FE.Reachable, RowFits, RepairFits;
  }

  lemma NotedKeepsInv(s: System, d: Db)
    requires Inv(s) && FileRules(d) && SameRows(s.db, d)
    ensures Inv(s.(db := d))
  {
    hide RowInv, FileRules;
    forall y | y in d.files ensures RowInv(s.(db := d), y) { NotedRow(s, d, y); }
  }

  lemma ProbeIsOver(e: FE.State)
    requires !FE.ProbeEnabled(e, false, false) && FE.Reachable(e)
    ensures FE.Step(e, FE.ProbeEnd).probe.NoProbe?
  {
    hide FE.Reachable;
  }

  lemma ProbeOverKeepsInv(s: System)
    requires Inv(s) && s.phase.Inspecting? && s.phase.x in s.effects
    requires !FE.ProbeEnabled(s.effects[s.phase.x], false, false)
    ensures Inv(Touch(s.(phase := Resting), s.phase.x, FE.ProbeEnd))
  {
    hide RowInv, FileRules, FE.Step, OnlyAt, FE.Reachable, FE.ProbeEnabled;
    var x := s.phase.x;
    InspectingRow(s);
    ReachableRow(s, x);
    ProbeIsOver(s.effects[x]);
    InspectedRow(s, Touch(s.(phase := Resting), x, FE.ProbeEnd), x, FE.ProbeEnd);
    InspectionIsLocal(s, x, Resting, FE.ProbeEnd);
    RowsApart(s, Touch(s.(phase := Resting), x, FE.ProbeEnd), x);
  }

  lemma InspectionIsOver(s: System, committed: bool, refused: bool)
    requires Enabled(s, InspectEnded(committed, refused))
    ensures s.phase.Inspecting? && s.phase.x in s.effects && !FE.ProbeEnabled(s.effects[s.phase.x], false, false)
  {
    hide FE.ProbeEnabled;
  }

  lemma InspectEndedShape(s: System, committed: bool, refused: bool)
    requires Enabled(s, InspectEnded(committed, refused))
    ensures s.phase.Inspecting? && s.phase.x in s.effects
    ensures Do(s, InspectEnded(committed, refused)) ==
            Touch(s.(db := Noted(s, committed, refused), phase := Resting), s.phase.x, FE.ProbeEnd)
  {
    hide FE.Step, Apply, FailInspection, FE.ProbeEnabled;
  }

  lemma InspectEndedKeepsInv(s: System, committed: bool, refused: bool)
    requires Inv(s) && Enabled(s, InspectEnded(committed, refused))
    ensures Inv(Do(s, InspectEnded(committed, refused)))
  {
    var d := Noted(s, committed, refused);
    RulesOf(s);
    InspectEndedShape(s, committed, refused);
    InspectionIsOver(s, committed, refused);
    hide Inv, FileRules, SameRows, Noted, Do, Enabled, FE.Step, FE.ProbeEnabled;
    InspectionMovesNoRow(s, committed, refused);
    NotedKeepsInv(s, d);
    ProbeOverKeepsInv(s.(db := d));
  }

  // ----- what an event commits ------------------------------------------------------------------

  lemma ClaimShape(s: System, committed: bool, replied: bool, built: bool)
    requires Enabled(s, Claim(committed, replied, built))
    ensures Do(s, Claim(committed, replied, built)).db == if committed then ClaimFile(s.db, s.phase.todo[0]) else s.db
  {
    hide FE.Step, ClaimFile, CanClaimFile;
  }

  lemma SettlingEpoch(s: System, e: Event)
    requires Inv(s) && e.SettleNow? && Enabled(s, e)
    ensures s.phase.Settling? && s.phase.x in s.db.files
    ensures s.phase.epoch != 0 ==> s.db.files[s.phase.x].epoch == s.phase.epoch
  {
    hide FileRules, RowInv;
  }

  lemma SettlementShape(s: System, e: Event)
    requires Enabled(s, e) && (e.Repair? || e.SettleNow?)
    ensures e.SettleNow? ==> s.phase.Settling?
    ensures var y := if e.Repair? then e.x else s.phase.x;
            && y in s.repairs && y in s.db.files
            && Do(s, e).db == (if e.committed
                               then SettleRow(s, y, if e.Repair? then s.db.files[y].epoch else s.phase.epoch) else s.db)
  {
    hide SettleRow;
  }

  // ----- every run --------------------------------------------------------------------------------

  lemma ScanKeepsInv(s: System, e: Event)
    requires Inv(s) && Enabled(s, e) && (e.Scan? || e.Skip? || e.GiveUp?)
    ensures Inv(Do(s, e))
  {
    hide RowInv, FileRules;
    forall y | y in s.db.files ensures RowInv(Do(s, e), y) { TriedRow(s, Do(s, e), y); }
  }

  lemma StepKeepsInv(s: System, e: Event)
    requires Inv(s)
    ensures Inv(Step(s, e))
  {
    hide Inv, Do;
    if Enabled(s, e) {
      match e
      case Others(tx) => OthersKeepInv(s, tx);
      case Outside(x, move) => OutsideKeepsInv(s, x, move);
      case Crash => CrashKeepsInv(s);
      case Startup => StartupKeepsInv(s);
      case Repair(x, committed, replied) => RepairKeepsInv(s, x, committed, replied);
      case Scan(_) => ScanKeepsInv(s, e);
      case Skip => ScanKeepsInv(s, e);
      case GiveUp => ScanKeepsInv(s, e);
      case Claim(committed, replied, built) => ClaimKeepsInv(s, committed, replied, built);
      case Call(move) => CallKeepsInv(s, move);
      case CallEnded(retired) => CallEndedKeepsInv(s, retired);
      case SettleNow(committed, replied, again) => SettleNowKeepsInv(s, committed, replied, again);
      case Inspect(x) => InspectKeepsInv(s, x);
      case ProbeMove(move) => ProbeMoveKeepsInv(s, move);
      case InspectEnded(committed, refused) => InspectEndedKeepsInv(s, committed, refused);
    }
  }

  lemma {:induction false} RunKeepsInv(es: seq<Event>)
    ensures Inv(Run(es))
    decreases |es|
  {
    if es != [] {
      RunKeepsInv(es[..|es| - 1]);
      StepKeepsInv(Run(es[..|es| - 1]), es[|es| - 1]);
    }
  }
}
