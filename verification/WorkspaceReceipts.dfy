/** Receipts of workspace creation and removal (infra/storage/workspace-receipts.ts with the
    effects of workspace-service.ts and workspace-paths.py): a create is rolled back, a removal
    that has begun is rolled forward, and every step may be cut by a crash or a power loss. */
module WorkspaceReceipts {

  /** The managed checkout directory; its inode is new each time the directory is made. */
  datatype Checkout =
    | Absent
    | Staged(inode: nat)     // made and empty
    | Partial(inode: nat)    // being filled or being deleted
    | Full(inode: nat)

  datatype Record =
    | Missing
    | Pending
    | Prepared(target: nat)
    | Removing(target: nat)
    | Applied(target: nat)
    | Completed
    | Failed

  datatype Ending = Returned | StorageFailed | Threw

  /** What a discard or a flush is for. */
  datatype Aim = Redo | Finish | Abort

  /** Where `withWorkspaceReceipt` stands; `mem` is its local `record`. */
  datatype Call =
    | NoCall
    | Loading(retry: bool)
    | Reviving                              // a failed removal is made pending again
    | Retiring(mem: Record)
    | Discarding(mem: Record, aim: Aim)
    | Comparing(mem: Record)
    | Opening                               // the first `pending` record
    | Executing(mem: Record)
    | Checkpointing(mem: Record)
    | Populating(mem: Record)
    | Deleting(mem: Record)
    | Applying(mem: Record)
    | Settling(mem: Record)
    | Catching(mem: Record)
    | Flushing(aim: Aim)
    | Completing
    | Failing
    | Done(ending: Ending)

  datatype State = State(
    creating: bool,
    home: nat,              // the registered checkout of a removal
    record: Record,
    checkout: Checkout,
    past: set<Checkout>,    // what the directory has been since it was last flushed
    busy: bool,             // the populating helper is alive
    next: nat,              // inodes handed out so far
    call: Call)

  /** `Torn`: the effect took place, whole or in part, and still an error is reported. */
  datatype Fault = Fine | Fail | Torn(whole: bool)

  datatype Event =
    | Begin(retry: bool)
    | Refuse                                // no room for another receipt
    | Move(fault: Fault)
    | End
    | HelperWrites(full: bool)
    | Crash
    | PowerLoss(survivor: Checkout)

  function Creation(): (s: State) { State(true, 0, Missing, Absent, {Absent}, false, 1, NoCall) }
  function Removal(home: nat): (s: State) {
    State(false, home, Missing, Full(home), {Full(home)}, false, home + 1, NoCall)
  }

  // ----- the directory effects -----------------------------------------------------------

  predicate Populated(c: Checkout) { c.Partial? || c.Full? }

  /** `discard` accepts an absent directory and otherwise only the recorded inode. */
  predicate Discardable(c: Checkout, target: nat) {
    c.Absent? || c.inode == target
  }

  predicate HasTarget(mem: Record) {
    mem.Prepared? || mem.Removing? || mem.Applied?
  }

  function Put(s: State, c: Checkout): (s': State) {
    s.(checkout := c, past := s.past + {c})
  }

  /** What an interrupted deletion leaves; an empty directory goes at once or not at all. */
  function Remains(c: Checkout, fault: Fault): (c': Checkout) {
    if fault.Fail? then c
    else if fault.Fine? || fault.whole then Absent
    else if Populated(c) then Partial(c.inode)
    else c
  }

  // ----- one await --------------------------------------------------------------------------

  function AfterLoad(s: State, retry: bool): (c: Call) {
    if s.record.Completed? then Settling(Completed)
    else if s.record.Failed? then (if !s.creating && retry then Reviving else Done(StorageFailed))
    else if s.record.Missing? then Opening
    else Retiring(s.record)
  }

  function AfterRetire(s: State, mem: Record): (c: Call) {
    if mem.Applied? && s.creating then Comparing(mem)
    else if mem.Applied? || mem.Removing? then Discarding(mem, Finish)
    else if mem.Prepared? then Discarding(mem, Redo)
    else Executing(mem)
  }

  /** Validation and preparation of a create, or inspection of a removal. */
  function Execute(s: State, mem: Record, fault: Fault): (s': State) {
    if s.creating && !fault.Fail? && !Populated(s.checkout) then
      var inode := if s.checkout.Staged? then s.checkout.inode else s.next;
      Put(s, Staged(inode)).(
        next := if s.checkout.Staged? then s.next else s.next + 1,
        call := if fault.Fine? then Checkpointing(Prepared(inode)) else Catching(mem))
    else if !s.creating && fault.Fine? && s.checkout == Full(s.home) then
      s.(call := Checkpointing(Removing(s.home)))
    else s.(call := Catching(mem))
  }

  function Discard(s: State, mem: Record, aim: Aim, fault: Fault): (s': State)
    requires HasTarget(mem)
  {
    if !Discardable(s.checkout, mem.target) then s.(call := Done(Threw))
    else if fault.Fine? then Put(s, Absent).(call := if aim.Redo? then Executing(mem) else Flushing(aim))
    else Put(s, Remains(s.checkout, fault)).(call := Done(Threw))
  }

  /** `save`: write, flush, rename, flush the directory. */
  function Saved(s: State, record: Record, fault: Fault, fine: Call, bad: Call): (s': State) {
    s.(record := if fault.Fail? then s.record else record, call := if fault.Fine? then fine else bad)
  }

  function Populate(s: State, mem: Record, fault: Fault): (s': State) {
    if fault.Fine? && s.checkout.Full? then s.(busy := false, call := Applying(mem))
    else s.(busy := s.busy && fault.Torn?, call := Catching(mem))
  }

  function Delete(s: State, mem: Record, fault: Fault): (s': State) {
    if fault.Fine? then Put(s, Absent).(call := Applying(mem))
    else Put(s, Remains(s.checkout, fault)).(call := Catching(mem))
  }

  /** `retireWorkspaceHelper`: only confirmed absence goes on. */
  function Retired(s: State, fault: Fault, fine: Call, bad: Call): (s': State) {
    s.(busy := s.busy && fault.Fail?, call := if fault.Fine? then fine else bad)
  }

  function AfterCatch(s: State, mem: Record): (c: Call) {
    if mem.Removing? || mem.Applied? then Done(Threw)
    else if s.creating && mem.Prepared? then Discarding(mem, Abort)
    else Flushing(Abort)
  }

  function Flush(s: State, aim: Aim, fault: Fault): (s': State) {
    s.(past := if fault.Fail? then s.past else {s.checkout},
       call := if !fault.Fine? then Done(Threw) else if aim.Abort? then Failing else Completing)
  }

  predicate Moving(c: Call) {
    && !c.NoCall? && !c.Done?
    && (c.Discarding? || c.Comparing? || c.Applying? ==> HasTarget(c.mem))
  }

  function Advance(s: State, fault: Fault): (s': State)
    requires Moving(s.call)
  {
    match s.call
    case Loading(retry) => s.(call := if fault.Fine? then AfterLoad(s, retry) else Done(Threw))
    case Reviving => Saved(s, Pending, fault, Retiring(Pending), Done(Threw))
    case Retiring(mem) => Retired(s, fault, AfterRetire(s, mem), Done(Threw))
    case Discarding(mem, aim) => Discard(s, mem, aim, fault)
    case Comparing(mem) =>
      s.(call := if fault.Fine? && s.checkout == Full(mem.target) then Flushing(Finish) else Done(Threw))
    case Opening => Saved(s, Pending, fault, Executing(Missing), Done(Threw))
    case Executing(mem) => Execute(s, mem, fault)
    case Checkpointing(mem) =>
      var fine := if s.creating then Populating(mem) else Deleting(mem);
      Saved(s, mem, fault, fine, Catching(mem)).(busy := fault.Fine? && s.creating)
    case Populating(mem) => Populate(s, mem, fault)
    case Deleting(mem) => Delete(s, mem, fault)
    case Applying(mem) =>
      Saved(s, Applied(mem.target), fault, Settling(Applied(mem.target)), Catching(Applied(mem.target)))
    case Settling(mem) =>
      if mem.Completed? then Retired(s, fault, Done(Returned), Done(Threw))
      else Retired(s, fault, Flushing(Finish), Catching(mem))
    case Catching(mem) => Retired(s, fault, AfterCatch(s, mem), Done(Threw))
    case Flushing(aim) => Flush(s, aim, fault)
    case Completing => Saved(s, Completed, fault, Done(Returned), Done(Threw))
    case Failing => Saved(s, Failed, fault, Done(StorageFailed), Done(Threw))
  }

  predicate Enabled(s: State, e: Event) {
    match e
    case Begin(_) => s.call.NoCall?
    case Refuse => s.call.Opening?
    case Move(_) => Moving(s.call)
    case End => s.call.Done?
    case HelperWrites(_) => s.busy && !s.checkout.Absent?
    case Crash => true
    case PowerLoss(survivor) => survivor in s.past
  }

  function Do(s: State, e: Event): (s': State)
    requires Enabled(s, e)
  {
    match e
    case Begin(retry) => s.(call := Loading(retry))
    case Refuse => s.(call := Done(StorageFailed))
    case Move(fault) => Advance(s, fault)
    case End => s.(call := NoCall)
    case HelperWrites(full) => Put(s, if full then Full(s.checkout.inode) else Partial(s.checkout.inode))
    case Crash => s.(call := NoCall)
    case PowerLoss(survivor) => s.(call := NoCall, busy := false, checkout := survivor, past := {survivor})
  }

  function Step(s: State, e: Event): (s': State) {
    if Enabled(s, e) then Do(s, e) else s
  }

  function Run(start: State, es: seq<Event>): (s: State)
    decreases |es|
  {
    if es == [] then start else Step(Run(start, es[..|es| - 1]), es[|es| - 1])
  }

  // ----- what every step keeps ------------------------------------------------------------------

  predicate NeverPopulated(s: State) {
    !s.busy && forall c :: c in s.past ==> !Populated(c)
  }

  predicate Flushed(s: State) {
    s.past == {s.checkout}
  }

  predicate Common(s: State) {
    && s.checkout in s.past
    && (forall c :: c in s.past && !c.Absent? ==> c.inode < s.next)
    && (s.record.Prepared? || s.record.Removing? || s.record.Applied? ==> s.record.target < s.next)
  }

  predicate CreateRecord(s: State) {
    && !s.record.Removing?
    && (s.record.Missing? || s.record.Pending? ==> NeverPopulated(s))
    && (s.record.Applied? ==> !s.busy)
    && (s.record.Completed? ==> Flushed(s) && s.checkout.Full? && !s.busy)
    && (s.record.Failed? ==> Flushed(s) && NeverPopulated(s))
    && (s.busy ==> s.record.Prepared? && !s.checkout.Absent? && s.checkout.inode == s.record.target)
  }

  predicate CreateCall(s: State) {
    match s.call
    case NoCall => true
    case Loading(_) => true
    case Reviving => false
    case Retiring(mem) => mem == s.record && (mem.Pending? || mem.Prepared? || mem.Applied?)
    case Discarding(mem, aim) =>
      mem.Prepared? && !s.busy && (aim.Abort? || (aim.Redo? && mem == s.record))
        && (s.record.Pending? || s.record.Prepared?)
    case Comparing(mem) => mem == s.record && mem.Applied?
    case Opening => s.record.Missing?
    case Executing(mem) =>
      && !s.busy && !Populated(s.checkout) && (mem.Missing? || mem.Pending? || mem.Prepared?)
      && (s.record.Pending? || s.record.Prepared?) && (mem.Missing? || mem.Pending? ==> s.record.Pending?)
    case Checkpointing(mem) =>
      mem.Prepared? && s.checkout == Staged(mem.target) && !s.busy && (s.record.Pending? || s.record.Prepared?)
    case Populating(mem) => mem.Prepared? && s.record == mem && !s.checkout.Absent? && s.checkout.inode == mem.target
    case Deleting(_) => false
    case Applying(mem) => mem.Prepared? && s.record == mem && s.checkout == Full(mem.target) && !s.busy
    case Settling(mem) =>
      mem == s.record && (mem.Completed? || (mem.Applied? && s.checkout == Full(mem.target) && !s.busy))
    case Catching(mem) =>
      && (mem.Missing? || mem.Pending? || mem.Prepared? || mem.Applied?)
      && (mem.Missing? || mem.Pending? ==> s.record.Pending?)
      && (mem.Prepared? ==> s.record.Pending? || s.record.Prepared?)
      && (mem.Applied? ==> s.record == Prepared(mem.target) || s.record == mem)
    case Flushing(aim) =>
      && !s.busy && !aim.Redo?
      && (aim.Finish? ==> s.record.Applied? && s.checkout == Full(s.record.target))
      && (aim.Abort? ==> !Populated(s.checkout) && (s.record.Pending? || s.record.Prepared?))
    case Completing => !s.busy && Flushed(s) && s.record.Applied? && s.checkout == Full(s.record.target)
    case Failing => !s.busy && Flushed(s) && !Populated(s.checkout) && (s.record.Pending? || s.record.Prepared?)
    case Done(ending) =>
      (ending.Returned? ==> s.record.Completed?) && (ending.StorageFailed? ==> s.record.Failed? || s.record.Missing?)
  }

  predicate RemoveRecord(s: State) {
    && !s.busy && !s.record.Prepared?
    && s.past <= {Full(s.home), Partial(s.home), Absent}
    && (s.record.Missing? || s.record.Pending? || s.record.Failed? ==> s.past == {Full(s.home)})
    && (s.record.Removing? || s.record.Applied? ==> s.record.target == s.home)
    && (s.record.Completed? ==> s.past == {Absent})
  }

  predicate RemoveCall(s: State) {
    match s.call
    case NoCall => true
    case Loading(_) => true
    case Reviving => s.record.Failed?
    case Retiring(mem) => mem == s.record && (mem.Pending? || mem.Removing? || mem.Applied?)
    case Discarding(mem, aim) => aim.Finish? && mem == s.record && (mem.Removing? || mem.Applied?)
    case Comparing(_) => false
    case Opening => s.record.Missing?
    case Executing(mem) => (mem.Missing? || mem.Pending?) && s.record.Pending?
    case Checkpointing(mem) => mem == Removing(s.home) && s.record.Pending?
    case Populating(_) => false
    case Deleting(mem) => mem == Removing(s.home) && s.record == mem
    case Applying(mem) => mem == Removing(s.home) && s.record == mem && s.checkout.Absent?
    case Settling(mem) => mem == s.record && (mem.Completed? || (mem.Applied? && s.checkout.Absent?))
    case Catching(mem) =>
      && (mem.Missing? || mem.Pending? || mem == Removing(s.home) || mem == Applied(s.home))
      && (mem.Missing? || mem.Pending? ==> s.record.Pending?)
      && (mem.Removing? ==> s.record.Pending? || s.record == mem)
      && (mem.Applied? ==> s.record == Removing(s.home) || s.record == mem)
    case Flushing(aim) =>
      && !aim.Redo?
      && (aim.Finish? ==> s.checkout.Absent? && (s.record.Removing? || s.record.Applied?))
      && (aim.Abort? ==> s.record.Pending?)
    case Completing => Flushed(s) && s.checkout.Absent? && (s.record.Removing? || s.record.Applied?)
    case Failing => s.record.Pending?
    case Done(ending) =>
      (ending.Returned? ==> s.record.Completed?) && (ending.StorageFailed? ==> s.record.Failed? || s.record.Missing?)
  }

  predicate Inv(s: State) {
    && Common(s)
    && if s.creating then CreateRecord(s) && CreateCall(s) else s.home < s.next && RemoveRecord(s) && RemoveCall(s)
  }

  predicate Recorded(c: Call) {
    c.Reviving? || c.Opening? || c.Checkpointing? || c.Applying? || c.Completing? || c.Failing?
  }

  predicate Touching(c: Call) {
    c.Discarding? || c.Executing? || c.Deleting? || c.Populating?
  }

  predicate Looking(c: Call) {
    c.Loading? || c.Retiring? || c.Comparing?
  }

  predicate Leaving(c: Call) {
    c.Settling? || c.Catching? || c.Flushing?
  }

  lemma SavingKeepsCreate(s: State, fault: Fault)
    requires Inv(s) && s.creating && Moving(s.call) && Recorded(s.call)
    ensures Inv(Advance(s, fault))
  {
    hide RemoveRecord, RemoveCall;
    hide Execute, Discard, Populate, Delete, Retired, Flush, AfterLoad, AfterRetire, AfterCatch;
  }

  lemma TouchingKeepsCreate(s: State, fault: Fault)
    requires Inv(s) && s.creating && Moving(s.call) && Touching(s.call)
    ensures Inv(Advance(s, fault))
  {
    hide RemoveRecord, RemoveCall;
    hide Saved, Retired, Flush, AfterLoad, AfterRetire, AfterCatch;
  }

  lemma LookingKeepsCreate(s: State, fault: Fault)
    requires Inv(s) && s.creating && Moving(s.call) && Looking(s.call)
    ensures Inv(Advance(s, fault))
  {
    hide RemoveRecord, RemoveCall;
    hide Saved, Execute, Discard, Populate, Delete, Flush, AfterCatch;
  }

  lemma LeavingKeepsCreate(s: State, fault: Fault)
    requires Inv(s) && s.creating && Moving(s.call) && Leaving(s.call)
    ensures Inv(Advance(s, fault))
  {
    hide RemoveRecord, RemoveCall;
    hide Saved, Execute, Discard, Populate, Delete, AfterLoad, AfterRetire;
  }

  lemma SavingKeepsRemove(s: State, fault: Fault)
    requires Inv(s) && !s.creating && Moving(s.call) && Recorded(s.call)
    ensures Inv(Advance(s, fault))
  {
    hide CreateRecord, CreateCall;
    hide Execute, Discard, Populate, Delete, Retired, Flush, AfterLoad, AfterRetire, AfterCatch;
  }

  lemma TouchingKeepsRemove(s: State, fault: Fault)
    requires Inv(s) && !s.creating && Moving(s.call) && Touching(s.call)
    ensures Inv(Advance(s, fault))
  {
    hide CreateRecord, CreateCall;
    hide Saved, Retired, Flush, AfterLoad, AfterRetire, AfterCatch;
  }

  lemma LookingKeepsRemove(s: State, fault: Fault)
    requires Inv(s) && !s.creating && Moving(s.call) && Looking(s.call)
    ensures Inv(Advance(s, fault))
  {
    hide CreateRecord, CreateCall;
    hide Saved, Execute, Discard, Populate, Delete, Flush, AfterCatch;
  }

  lemma LeavingKeepsRemove(s: State, fault: Fault)
    requires Inv(s) && !s.creating && Moving(s.call) && Leaving(s.call)
    ensures Inv(Advance(s, fault))
  {
    hide CreateRecord, CreateCall;
    hide Saved, Execute, Discard, Populate, Delete, AfterLoad, AfterRetire;
  }

  lemma MoveKeepsInv(s: State, fault: Fault)
    requires Inv(s) && Moving(s.call)
    ensures Inv(Advance(s, fault))
  {
    hide Inv, Advance;
    if s.creating {
      if Recorded(s.call) { SavingKeepsCreate(s, fault); }
      else if Touching(s.call) { TouchingKeepsCreate(s, fault); }
      else if Looking(s.call) { LookingKeepsCreate(s, fault); }
      else { LeavingKeepsCreate(s, fault); }
    } else {
      if Recorded(s.call) { SavingKeepsRemove(s, fault); }
      else if Touching(s.call) { TouchingKeepsRemove(s, fault); }
      else if Looking(s.call) { LookingKeepsRemove(s, fault); }
      else { LeavingKeepsRemove(s, fault); }
    }
  }

  lemma StepKeepsInv(s: State, e: Event)
    requires Inv(s)
    ensures Inv(Step(s, e))
  {
    if e.Move? && Enabled(s, e) {
      MoveKeepsInv(s, e.fault);
    }
  }

  lemma RunKeepsInv(start: State, es: seq<Event>)
    requires Inv(start)
    ensures Inv(Run(start, es))
    decreases |es|
  {
    if es != [] {
      RunKeepsInv(start, es[..|es| - 1]);
      StepKeepsInv(Run(start, es[..|es| - 1]), es[|es| - 1]);
    }
  }

  ghost predicate Start(s: State) {
    s == Creation() || (exists home: nat :: s == Removal(home))
  }

  // ----- what a receipt says about the directory -------------------------------------------------

  /** A completed receipt: the checkout is whole (or gone), nothing else could survive a power
      loss, and no helper can still write to it. */
  lemma CompletionIsTrue(start: State, es: seq<Event>)
    requires Start(start)
    ensures var s := Run(start, es);
            s.record.Completed? ==>
              Flushed(s) && !s.busy && if start.creating then s.checkout.Full? else s.checkout.Absent?
  {
    RunKeepsInv(start, es);
    KindStays(start, es);
  }

  /** A failed create left no content behind, whatever power is lost; a failed removal never began. */
  lemma FailureLeavesNothingHalf(start: State, es: seq<Event>)
    requires Start(start)
    ensures var s := Run(start, es);
            s.record.Failed? ==>
              !s.busy && forall c :: c in s.past ==> if start.creating then !Populated(c) else c == Full(start.home)
  {
    RunKeepsInv(start, es);
    KindStays(start, es);
  }

  lemma KindStays(start: State, es: seq<Event>)
    ensures Run(start, es).creating == start.creating && Run(start, es).home == start.home
    decreases |es|
  {
    if es != [] { KindStays(start, es[..|es| - 1]); }
  }

  function Rank(r: Record): (n: nat) {
    if r.Removing? then 1 else if r.Applied? then 2 else if r.Completed? then 3 else 0
  }

  /** Once `removing` is saved, no step takes a removal back: not an error, a crash or a retry. */
  lemma RemovalRollsForward(home: nat, es: seq<Event>, more: seq<Event>)
    requires Rank(Run(Removal(home), es).record) > 0
    ensures Rank(Run(Removal(home), es).record) <= Rank(Run(Removal(home), es + more).record)
    decreases |more|
  {
    if more == [] {
      assert es + more == es;
    } else {
      var before := es + more[..|more| - 1];
      RemovalRollsForward(home, es, more[..|more| - 1]);
      RunKeepsInv(Removal(home), before);
      KindStays(Removal(home), before);
      assert (es + more)[..|es + more| - 1] == before;
      RankRises(Run(Removal(home), before), more[|more| - 1]);
    }
  }

  lemma RankRises(s: State, e: Event)
    requires Inv(s) && !s.creating && Rank(s.record) > 0
    ensures Rank(s.record) <= Rank(Step(s, e).record)
  {
  }

  // ----- a call that meets no further fault -------------------------------------------------------

  /** Moves left until the call is over. */
  function Left(c: Call): (n: nat) {
    match c
    case Loading(_) => 19
    case Reviving => 18
    case Retiring(_) => 17
    case Opening => 16
    case Comparing(_) => 16
    case Discarding(_, aim) => if aim.Redo? then 16 else 4
    case Executing(_) => 15
    case Checkpointing(_) => 14
    case Populating(_) => 13
    case Deleting(_) => 13
    case Applying(_) => 12
    case Settling(_) => 11
    case Catching(_) => 10
    case Flushing(_) => 3
    case Completing => 2
    case Failing => 2
    case Done(_) => 0
    case NoCall => 0
  }

  /** The populating helper does all of its work, or none. */
  function Helped(s: State, works: bool): (s': State) {
    if works && s.call.Populating? then Step(s, HelperWrites(true)) else s
  }

  lemma CleanMoveRanks(s: State)
    requires Inv(s) && Moving(s.call)
    ensures Left(Advance(s, Fine).call) < Left(s.call)
    ensures !Moving(Advance(s, Fine).call) ==> Advance(s, Fine).call.Done?
  {
    hide Inv, Advance, Moving, Left;
    MoveKeepsInv(s, Fine);
    if s.creating { CreateRankFalls(s); } else { RemoveRankFalls(s); }
    CallGoesOn(s, Fine);
    if !Moving(Advance(s, Fine).call) { StoppedIsDone(Advance(s, Fine)); }
  }

  lemma CreateRankFalls(s: State)
    requires Inv(s) && s.creating && Moving(s.call)
    ensures Left(Advance(s, Fine).call) < Left(s.call)
  {
    hide RemoveRecord, RemoveCall, Common, CreateRecord, Remains;
  }

  lemma RemoveRankFalls(s: State)
    requires Inv(s) && !s.creating && Moving(s.call)
    ensures Left(Advance(s, Fine).call) < Left(s.call)
  {
    hide CreateRecord, CreateCall, Common, RemoveRecord, Remains;
  }

  lemma CallGoesOn(s: State, fault: Fault)
    requires Moving(s.call)
    ensures !Advance(s, fault).call.NoCall?
  {
    hide Put, Remains;
  }

  lemma StoppedIsDone(s: State)
    requires Inv(s) && !Moving(s.call)
    ensures s.call.NoCall? || s.call.Done?
  {
    hide Common, CreateRecord, RemoveRecord;
  }

  function Settle(s: State, works: bool): (s': State)
    requires Inv(s)
    decreases Left(s.call)
  {
    if !Moving(s.call) then s
    else
      var t := Helped(s, works);
      StepKeepsInv(s, HelperWrites(true));
      CleanMoveRanks(t);
      MoveKeepsInv(t, Fine);
      Settle(Advance(t, Fine), works)
  }

  /** What no retry can repair: the receipt names one directory and another stands in its place,
      or an applied create no longer has the content that was fingerprinted. */
  predicate Stuck(s: State) {
    && s.creating
    && ((s.record.Prepared? && !Discardable(s.checkout, s.record.target))
        || (s.record.Applied? && s.checkout != Full(s.record.target)))
  }

  predicate Answered(s: State) {
    && s.call.Done?
    && (s.record.Completed? || s.record.Failed?)
    && (s.call.ending.Returned? <==> s.record.Completed?)
    && (s.call.ending.StorageFailed? <==> s.record.Failed?)
  }

  /** Where a fault-free call stands on its way to an answer. */
  predicate OnTheWay(s: State) {
    && !s.call.NoCall?
    && (s.call.Done? ==> Answered(s))
    && (s.call.Discarding? ==> HasTarget(s.call.mem) && Discardable(s.checkout, s.call.mem.target))
    && (s.call.Comparing? ==> HasTarget(s.call.mem) && s.checkout == Full(s.call.mem.target))
    && (s.call.Loading? || s.call.Retiring? ==> !Stuck(s))
    && (s.call.Catching? ==> !s.call.mem.Removing? && !s.call.mem.Applied?)
    && (s.call.Catching? && s.call.mem.Prepared? ==> Discardable(s.checkout, s.call.mem.target))
  }

  /** On its way to success: the helper works, and a failed removal is retried. */
  predicate Winning(s: State) {
    && !s.call.Catching? && !s.call.Failing?
    && (s.call.Discarding? || s.call.Flushing? ==> !s.call.aim.Abort?)
    && (s.record.Failed? ==> !s.creating && (s.call == Loading(true) || s.call.Reviving?))
    && (s.call.Populating? ==> s.busy)
  }

  predicate Refusing(s: State) {
    && Stuck(s)
    && (s.call.NoCall? || s.call.Loading? || s.call.Retiring? || s.call.Comparing? || s.call == Done(Threw)
        || (s.call.Discarding? && s.call.aim.Redo?))
  }

  lemma HelpKeepsTheWay(s: State, works: bool)
    requires Inv(s) && OnTheWay(s)
    ensures Inv(Helped(s, works)) && OnTheWay(Helped(s, works)) && Helped(s, works).call == s.call
    ensures works && Winning(s) ==>
              Winning(Helped(s, works)) && (s.call.Populating? ==> Helped(s, works).checkout.Full?)
  {
    StepKeepsInv(s, HelperWrites(true));
  }

  lemma CreateStaysOnTheWay(s: State)
    requires Inv(s) && OnTheWay(s) && Moving(s.call) && s.creating
    ensures OnTheWay(Advance(s, Fine))
    ensures Winning(s) && (s.call.Populating? ==> s.checkout.Full?) ==> Winning(Advance(s, Fine))
  {
  }

  lemma RemovalStaysOnTheWay(s: State)
    requires Inv(s) && OnTheWay(s) && Moving(s.call) && !s.creating
    ensures OnTheWay(Advance(s, Fine))
    ensures Winning(s) ==> Winning(Advance(s, Fine))
  {
  }

  lemma {:induction false} SettleAnswers(s: State, works: bool)
    requires Inv(s) && OnTheWay(s)
    ensures Answered(Settle(s, works))
    ensures works && Winning(s) ==> Settle(s, works).record.Completed?
    decreases Left(s.call)
  {
    if Moving(s.call) {
      var t := Helped(s, works);
      HelpKeepsTheWay(s, works);
      CleanMoveRanks(t);
      MoveKeepsInv(t, Fine);
      if s.creating { CreateStaysOnTheWay(t); } else { RemovalStaysOnTheWay(t); }
      SettleAnswers(Advance(t, Fine), works);
    }
  }

  lemma {:induction false} SettleRefuses(s: State, works: bool)
    requires Inv(s) && Refusing(s) && !s.call.NoCall?
    ensures Settle(s, works).call == Done(Threw) && Refusing(Settle(s, works))
    decreases Left(s.call)
  {
    if Moving(s.call) {
      CleanMoveRanks(s);
      MoveKeepsInv(s, Fine);
      SettleRefuses(Advance(s, Fine), works);
    }
  }

  /** After any run with any crashes, one more call without a fault ends in at most 19 moves, and
      it ends with the receipt completed or failed exactly when the receipt is not stuck; if
      moreover the helper works, only a create that had already failed is not completed. */
  lemma CleanCallSettles(start: State, es: seq<Event>, retry: bool, works: bool)
    requires Start(start) && Run(start, es).call.NoCall?
    ensures var s := Run(start, es);
            var t := Step(s, Begin(retry));
            && Inv(t) && Left(t.call) == 19
            && (Answered(Settle(t, works)) <==> !Stuck(s))
            && (Stuck(s) ==> Settle(t, works).call == Done(Threw))
            && (works && !Stuck(s) && (s.record.Failed? ==> !s.creating && retry) ==>
                Settle(t, works).record.Completed?)
  {
    RunKeepsInv(start, es);
    var s := Run(start, es);
    var t := Step(s, Begin(retry));
    StepKeepsInv(s, Begin(retry));
    if Stuck(s) { SettleRefuses(t, works); } else { SettleAnswers(t, works); }
  }

  /** Short of a power loss that undoes unflushed work, a stuck receipt stays stuck for good. */
  lemma StuckForGood(s: State, es: seq<Event>)
    requires Inv(s) && Stuck(s) && s.call.NoCall?
    requires forall e :: e in es ==> !e.PowerLoss?
    ensures Stuck(Run(s, es)) && Run(s, es).record == s.record
  {
    StaysRefusing(s, es);
  }

  lemma StaysRefusing(s: State, es: seq<Event>)
    requires Inv(s) && Refusing(s)
    requires forall e :: e in es ==> !e.PowerLoss?
    ensures Refusing(Run(s, es)) && Inv(Run(s, es)) && Run(s, es).record == s.record
    decreases |es|
  {
    if es != [] {
      var before := es[..|es| - 1];
      assert forall e :: e in before ==> e in es;
      StaysRefusing(s, before);
      assert es[|es| - 1] in es;
      StepKeepsInv(Run(s, before), es[|es| - 1]);
      RefusalStays(Run(s, before), es[|es| - 1]);
    }
  }

  lemma RefusalStays(s: State, e: Event)
    requires Inv(s) && Refusing(s) && !e.PowerLoss?
    ensures Refusing(Step(s, e)) && Step(s, e).record == s.record
  {
  }

  lemma RunOneMore(start: State, es: seq<Event>, e: Event)
    ensures Run(start, es + [e]) == Step(Run(start, es), e)
  {
    assert (es + [e])[..|es|] == es;
  }

  /** The run up to a crash just after the first directory was checkpointed. */
  lemma CrashAfterCheckpoint() returns (es: seq<Event>)
    ensures forall e :: e in es ==> e == Begin(false) || e == Move(Fine) || e == Crash
    ensures Run(Creation(), es) ==
            State(true, 0, Prepared(1), Staged(1), {Absent, Staged(1)}, true, 2, NoCall)
  {
    var c := Creation();
    RunOneMore(c, [], Begin(false));
    es := [] + [Begin(false)];
    assert Run(c, es).call == Loading(false);
    RunOneMore(c, es, Move(Fine));
    es := es + [Move(Fine)];
    assert Run(c, es).call == Opening;
    RunOneMore(c, es, Move(Fine));
    es := es + [Move(Fine)];
    assert Run(c, es).call == Executing(Missing);
    RunOneMore(c, es, Move(Fine));
    es := es + [Move(Fine)];
    assert Run(c, es).call == Checkpointing(Prepared(1));
    RunOneMore(c, es, Move(Fine));
    es := es + [Move(Fine)];
    RunOneMore(c, es, Crash);
    es := es + [Crash];
  }

  /** Two crashes around a checkpoint are enough to stick: the second call discards the first
      directory, makes another and dies before its receipt says so. */
  lemma TwoCrashesStick() returns (es: seq<Event>)
    ensures forall e :: e in es ==> e == Begin(false) || e == Move(Fine) || e == Crash
    ensures Stuck(Run(Creation(), es)) && Run(Creation(), es).call.NoCall?
  {
    var c := Creation();
    es := CrashAfterCheckpoint();
    RunOneMore(c, es, Begin(false));
    es := es + [Begin(false)];
    assert Run(c, es).call == Loading(false);
    RunOneMore(c, es, Move(Fine));
    es := es + [Move(Fine)];
    assert Run(c, es).call == Retiring(Prepared(1));
    RunOneMore(c, es, Move(Fine));
    es := es + [Move(Fine)];
    assert Run(c, es).call == Discarding(Prepared(1), Redo);
    RunOneMore(c, es, Move(Fine));
    es := es + [Move(Fine)];
    assert Run(c, es).call == Executing(Prepared(1));
    RunOneMore(c, es, Move(Fine));
    es := es + [Move(Fine)];
    RunOneMore(c, es, Crash);
    es := es + [Crash];
  }

  // ----- what a fault leaves ------------------------------------------------------------------------------

  /** A fault ends the call with an error, through the catch where the effect may have begun: never with a
      return, and with a storage failure only where there was none to report. */
  lemma FaultAnswers(s: State, fault: Fault)
    requires Moving(s.call) && !fault.Fine?
    ensures var call := Advance(s, fault).call;
            match s.call
            case Executing(mem) => call == Catching(mem)
            case Checkpointing(mem) => call == Catching(mem)
            case Populating(mem) => call == Catching(mem)
            case Deleting(mem) => call == Catching(mem)
            case Applying(mem) => call == Catching(Applied(mem.target))
            case Settling(mem) => call == if mem.Completed? then Done(Threw) else Catching(mem)
            case _ => call == Done(Threw)
  {
  }

  /** The record after a write that failed is the old one, after a torn or a clean one the new one. */
  lemma WritesLeave(s: State, fault: Fault)
    requires Moving(s.call)
    ensures var record := Advance(s, fault).record;
            if fault.Fail? then record == s.record
            else match s.call
              case Reviving => record == Pending
              case Opening => record == Pending
              case Checkpointing(mem) => record == mem
              case Applying(mem) => record == Applied(mem.target)
              case Completing => record == Completed
              case Failing => record == Failed
              case _ => record == s.record
  {
  }

  /** A preparation makes the directory or takes the one it finds prepared; a populated one is never
      prepared, and neither is any for a removal. */
  lemma PreparationLeaves(s: State, fault: Fault)
    requires s.call.Executing?
    ensures var s' := Advance(s, fault);
            && (s'.past == s.past || s'.past == s.past + {s'.checkout})
            && (s.creating && s.checkout.Absent? && !fault.Fail? ==>
                  s'.checkout == Staged(s.next) && s'.next == s.next + 1)
            && (s.creating && s.checkout.Staged? && !fault.Fail? ==> s'.checkout == s.checkout && s'.next == s.next)
            && (!s.creating || fault.Fail? || Populated(s.checkout) ==> s'.checkout == s.checkout && s'.next == s.next)
            && (s'.call.Checkpointing? <==>
                  fault.Fine? && if s.creating then !Populated(s.checkout) else s.checkout == Full(s.home))
            && (s'.call.Checkpointing? ==>
                  s'.call.mem == if s.creating then Prepared(s'.checkout.inode) else Removing(s.home))
  {
  }

  /** A deletion that is not clean leaves the directory, part of it or nothing, as the fault says, and it is
      in doubt which of them survives a power loss. */
  lemma DeletionLeaves(s: State, fault: Fault)
    requires Moving(s.call) && (s.call.Deleting? || (s.call.Discarding? && Discardable(s.checkout, s.call.mem.target)))
    ensures var s' := Advance(s, fault);
            && s'.past == s.past + {s'.checkout}
            && s'.checkout == if fault.Fail? then s.checkout
                              else if fault.Fine? || fault.whole then Absent
                              else if Populated(s.checkout) then Partial(s.checkout.inode) else s.checkout
  {
  }

  /** Only the recorded directory is discarded. */
  lemma StrangersStay(s: State, fault: Fault)
    requires Moving(s.call) && s.call.Discarding? && !s.checkout.Absent? && s.checkout.inode != s.call.mem.target
    ensures Advance(s, fault) == s.(call := Done(Threw))
  {
  }

  /** The helper is gone exactly once its work or its retirement is known to be over; a failed flush leaves
      in doubt what survives a power loss, any other settles it. */
  lemma HelperAndFlush(s: State, fault: Fault)
    requires Moving(s.call)
    ensures s.call.Populating? ==>
              Advance(s, fault).busy == if fault.Fine? && s.checkout.Full? then false else s.busy && fault.Torn?
    ensures s.call.Retiring? || s.call.Settling? || s.call.Catching? ==>
              Advance(s, fault).busy == (s.busy && fault.Fail?)
    ensures s.call.Checkpointing? ==> Advance(s, fault).busy == (fault.Fine? && s.creating)
    ensures s.call.Flushing? ==> Advance(s, fault).past == if fault.Fail? then s.past else {s.checkout}
    ensures s.call.Loading? || s.call.Comparing? || s.call.Opening? || s.call.Completing? || s.call.Failing?
            || s.call.Reviving? || s.call.Applying? ==>
              Advance(s, fault).busy == s.busy && Advance(s, fault).past == s.past
  {
  }

  lemma OutsideLeaves(s: State, full: bool, survivor: Checkout)
    ensures Step(s, Crash) == s.(call := NoCall)
    ensures s.call.Done? ==> Step(s, End) == s.(call := NoCall)
    ensures s.call.Opening? ==> Step(s, Refuse) == s.(call := Done(StorageFailed))
    ensures survivor in s.past ==>
              Step(s, PowerLoss(survivor))
              == s.(call := NoCall, busy := false, checkout := survivor, past := {survivor})
    ensures s.busy && !s.checkout.Absent? ==>
              var written := if full then Full(s.checkout.inode) else Partial(s.checkout.inode);
              Step(s, HelperWrites(full)) == s.(checkout := written, past := s.past + {written})
  {
    hide Advance;
  }

  // ----- how records and directories move on ----------------------------------------------------------------

  /** The records in their order; a prepared create may be prepared once more, and a failed removal begin
      again. */
  predicate Onward(creating: bool, a: Record, b: Record) {
    || a == b
    || (a.Missing? && b.Pending?)
    || (creating && (a.Pending? || a.Prepared?) && (b.Prepared? || b.Failed?))
    || (!creating && a.Pending? && (b.Removing? || b.Failed?))
    || (!creating && a.Failed? && b.Pending?)
    || ((a.Prepared? || a.Removing?) && b == Applied(a.target))
    || ((a.Removing? || a.Applied?) && b.Completed?)
  }

  /** Over every run, whatever fails, crashes or loses power: no event moves a record but onward. */
  lemma RecordsMoveOn(start: State, es: seq<Event>, e: Event)
    requires Start(start)
    ensures var s, s' := Run(start, es), Run(start, es + [e]);
            Onward(s.creating, s.record, s'.record)
  {
    RunKeepsInv(start, es);
    RunOneMore(start, es, e);
    RecordMovesOn(Run(start, es), e);
  }

  lemma RecordMovesOn(s: State, e: Event)
    requires Inv(s)
    ensures Onward(s.creating, s.record, Step(s, e).record)
  {
    if Enabled(s, e) && e.Move? {
      WritesLeave(s, e.fault);
      hide Advance;
    } else {
      hide Advance;
    }
  }

  /** A directory goes, in whole or in part, only by the deletion of its own removal or by the discarding of
      the inode on record; it comes only where there was none, under an inode never used; and else it is
      only written into. A power loss alone may bring back what was not flushed. */
  lemma OnlyTheOwnDirectoryGoes(s: State, e: Event)
    requires Enabled(s, e) && !e.PowerLoss?
    ensures var c, c' := s.checkout, Do(s, e).checkout;
            && (c.Absent? && !c'.Absent? ==> e.Move? && s.call.Executing? && s.creating && c' == Staged(s.next))
            && (!c.Absent? && !c'.Absent? ==> c'.inode == c.inode)
            && (!c.Absent? && c' != c && !e.HelperWrites? ==>
                  e.Move? && (s.call.Deleting? || (s.call.Discarding? && c.inode == s.call.mem.target)))
  {
    if e.Move? {
      if s.call.Executing? { PreparationLeaves(s, e.fault); }
      if s.call.Deleting? || (s.call.Discarding? && Discardable(s.checkout, s.call.mem.target)) {
        DeletionLeaves(s, e.fault);
      }
      if s.call.Discarding? && !s.checkout.Absent? && s.checkout.inode != s.call.mem.target {
        StrangersStay(s, e.fault);
      }
    } else {
      OutsideLeaves(s, e.HelperWrites? && e.full, s.checkout);
    }
  }
}
