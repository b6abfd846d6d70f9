/** The launch authority of one runtime identity (infra/runner/authority.ts) and the operator's
    recovery of a lock that a crash left behind (infra/deploy/recover-runtime.ts). A launch only
    starts the `docker run` client; its container appears, or does not, at some later point. */
module RunnerAuthority {
  import opened Sets

  datatype Option<T> = None | Some(value: T)

  /** The lock directory; `next` is the ledger being written inside it. */
  datatype Lock = Lock(inode: nat, next: bool)

  datatype Result = Launched | Retired | Stale | Failed

  /** Where `authority` stands; generation 0 is no generation. */
  datatype Call =
    | NoCall
    | Reading(gen: nat, retire: bool)
    | Retiring(gen: nat, retire: bool)      // inspect, remove and confirm the recorded container
    | Revoking(gen: nat, retire: bool)
    | Writing(gen: nat)
    | Renaming(gen: nat)
    | Syncing(gen: nat)
    | Launching(gen: nat)
    | Unlocking(result: Result)

  datatype Recovery =
    | NoRecovery
    | Removing(inode: nat)
    | Clearing(inode: nat)
    | Dropping(inode: nat)

  datatype State = State(
    ledger: nat,            // the generation on record, 0 when there is none
    durable: nat,           // what a power loss leaves of it
    lock: Option<Lock>,
    live: set<nat>,         // generations whose container exists
    pending: set<nat>,      // generations whose container may still appear
    launched: seq<nat>,
    call: Call,
    recovery: Recovery,
    inodes: nat)

  datatype Event =
    | Acquire(gen: nat, retire: bool)
    | Move(ok: bool, partly: bool)
    | Crash
    | Appear(gen: nat)
    | Abandon(gen: nat)                     // the client gives up before its container exists
    | Exit(gen: nat)
    | PowerLoss(ledgerKept: bool, lock: Option<Lock>)
    | Recover(gen: nat, inode: nat)
    | RecoveryMove(ok: bool)

  const INITIAL: State := State(0, 0, None, {}, {}, [], NoCall, NoRecovery, 0)

  // ----- one call ---------------------------------------------------------------------------

  function AfterRead(s: State, gen: nat, retire: bool): (c: Call) {
    if s.ledger == 0 then (if retire then Unlocking(Retired) else Writing(gen))
    else if !retire && gen <= s.ledger then Unlocking(Stale)
    else Retiring(gen, retire)
  }

  function WithNext(s: State, next: bool): (s': State) {
    if s.lock.Some? then s.(lock := Some(s.lock.value.(next := next))) else s
  }

  /** One await of the call. `partly`: a failed one did its work, or part of it, all the same. */
  function Advance(s: State, ok: bool, partly: bool): (s': State)
    requires !s.call.NoCall?
  {
    match s.call
    case Reading(gen, retire) => s.(call := if ok then AfterRead(s, gen, retire) else Unlocking(Failed))
    case Retiring(gen, retire) =>
      s.(live := if ok || partly then s.live - {s.ledger} else s.live,
         call := if ok then Revoking(gen, retire) else Unlocking(Failed))
    case Revoking(gen, retire) =>
      s.(call := if !ok then Unlocking(Failed) else if retire then Unlocking(Retired) else Writing(gen))
    case Writing(gen) =>
      WithNext(s, ok || partly).(call := if ok then Renaming(gen) else Unlocking(Failed))
    case Renaming(gen) =>
      if ok then WithNext(s, false).(ledger := gen, call := Syncing(gen)) else s.(call := Unlocking(Failed))
    case Syncing(gen) =>
      s.(durable := if ok then s.ledger else s.durable, call := if ok then Launching(gen) else Unlocking(Failed))
    case Launching(gen) =>
      if ok then s.(pending := s.pending + {gen}, launched := s.launched + [gen], call := Unlocking(Launched))
      else s.(call := Unlocking(Failed))
    case Unlocking(_) =>
      s.(lock := if ok && s.lock.Some? && !s.lock.value.next then None else s.lock, call := NoCall)
  }

  /** `recover-runtime`: remove and confirm, unlink `next`, then drop exactly the named lock. */
  function AdvanceRecovery(s: State, ok: bool): (s': State)
    requires !s.recovery.NoRecovery?
  {
    if !ok then s.(recovery := NoRecovery)
    else match s.recovery
      case Removing(inode) => s.(live := s.live - {s.ledger}, recovery := Clearing(inode))
      case Clearing(inode) => WithNext(s, false).(recovery := Dropping(inode))
      case Dropping(inode) =>
        s.(lock := if s.lock.Some? && s.lock.value.inode == inode then None else s.lock, recovery := NoRecovery)
  }

  predicate Enabled(s: State, e: Event) {
    match e
    case Acquire(gen, retire) => s.lock.None? && s.call.NoCall? && (retire || gen >= 1)
    case Move(_, _) => !s.call.NoCall?
    case Crash => true
    case Appear(gen) => gen in s.pending
    case Abandon(gen) => gen in s.pending
    case Exit(gen) => gen in s.live
    case PowerLoss(_, lock) => lock.None? || s.lock.None? || lock.value.inode == s.lock.value.inode
    case Recover(gen, inode) =>
      && s.call.NoCall? && s.recovery.NoRecovery?
      && s.lock.Some? && s.lock.value.inode == inode && gen == s.ledger
    case RecoveryMove(_) => !s.recovery.NoRecovery?
  }

  function Do(s: State, e: Event): (s': State)
    requires Enabled(s, e)
  {
    match e
    case Acquire(gen, retire) =>
      s.(lock := Some(Lock(s.inodes, false)), inodes := s.inodes + 1, call := Reading(gen, retire))
    case Move(ok, partly) => Advance(s, ok, partly)
    case Crash => s.(call := NoCall, recovery := NoRecovery)
    case Appear(gen) => s.(pending := s.pending - {gen}, live := s.live + {gen})
    case Abandon(gen) => s.(pending := s.pending - {gen})
    case Exit(gen) => s.(live := s.live - {gen})
    case PowerLoss(ledgerKept, lock) =>
      s.(ledger := if ledgerKept then s.ledger else s.durable, lock := if s.lock.None? then None else lock,
         durable := if ledgerKept then s.ledger else s.durable,
         live := {}, pending := {}, call := NoCall, recovery := NoRecovery)
    case Recover(gen, inode) => s.(recovery := Removing(inode))
    case RecoveryMove(ok) => AdvanceRecovery(s, ok)
  }

  function Step(s: State, e: Event): (s': State) {
    if Enabled(s, e) then Do(s, e) else s
  }

  function Run(es: seq<Event>): (s: State)
    decreases |es|
  {
    if es == [] then INITIAL else Step(Run(es[..|es| - 1]), es[|es| - 1])
  }

  lemma RunOneMore(es: seq<Event>, e: Event)
    ensures Run(es + [e]) == Step(Run(es), e)
  {
    assert (es + [e])[..|es|] == es;
  }

  // ----- what one move comes to -------------------------------------------------------------------

  /** Where a call goes: an error ends it as failed; a launch that is not above the ledger is stale; a
      retirement ends once the container is gone; and a launch ends as launched only after its generation
      was written, renamed and flushed, in that order. */
  lemma MoveAnswers(s: State, ok: bool, partly: bool)
    requires !s.call.NoCall?
    ensures var call := Advance(s, ok, partly).call;
            if s.call.Unlocking? then call.NoCall?
            else if !ok then call == Unlocking(Failed)
            else match s.call
              case Reading(gen, retire) =>
                call == if s.ledger == 0 && retire then Unlocking(Retired)
                        else if s.ledger == 0 then Writing(gen)
                        else if !retire && gen <= s.ledger then Unlocking(Stale) else Retiring(gen, retire)
              case Retiring(gen, retire) => call == Revoking(gen, retire)
              case Revoking(gen, retire) => call == if retire then Unlocking(Retired) else Writing(gen)
              case Writing(gen) => call == Renaming(gen)
              case Renaming(gen) => call == Syncing(gen)
              case Syncing(gen) => call == Launching(gen)
              case _ => call == Unlocking(Launched)
  {
  }

  /** And what it leaves: the ledger changes by the rename, its durable part by the flush, the container
      goes in the retirement, and one may appear only after the launch. */
  lemma MoveLeaves(s: State, ok: bool, partly: bool)
    requires !s.call.NoCall?
    ensures var s' := Advance(s, ok, partly);
            && s'.ledger == (if ok && s.call.Renaming? then s.call.gen else s.ledger)
            && s'.durable == (if ok && s.call.Syncing? then s.ledger else s.durable)
            && s'.live == (if s.call.Retiring? && (ok || partly) then s.live - {s.ledger} else s.live)
            && s'.pending == (if ok && s.call.Launching? then s.pending + {s.call.gen} else s.pending)
            && s'.launched == (if ok && s.call.Launching? then s.launched + [s.call.gen] else s.launched)
            && s'.inodes == s.inodes && s'.recovery == s.recovery
  {
  }

  /** A lock is dropped by its own call, unless the next ledger still lies in it. */
  lemma LockLeaves(s: State, ok: bool, partly: bool)
    requires !s.call.NoCall? && s.lock.Some?
    ensures Advance(s, ok, partly).lock ==
            if s.call.Writing? && (ok || partly) then Some(s.lock.value.(next := true))
            else if s.call.Writing? then Some(s.lock.value.(next := false))
            else if s.call.Renaming? && ok then Some(s.lock.value.(next := false))
            else if s.call.Unlocking? && ok && !s.lock.value.next then None
            else s.lock
  {
  }

  /** The operator's recovery: the recorded container goes, then the next ledger in the lock, then the lock
      that was named and no other; an error stops it where it is. */
  lemma RecoveryLeaves(s: State, ok: bool)
    requires !s.recovery.NoRecovery?
    ensures !ok ==> AdvanceRecovery(s, ok) == s.(recovery := NoRecovery)
    ensures ok && s.recovery.Removing? ==>
              AdvanceRecovery(s, ok) == s.(live := s.live - {s.ledger}, recovery := Clearing(s.recovery.inode))
    ensures ok && s.recovery.Clearing? && s.lock.Some? ==>
              AdvanceRecovery(s, ok) ==
              s.(lock := Some(Lock(s.lock.value.inode, false)), recovery := Dropping(s.recovery.inode))
    ensures ok && s.recovery.Dropping? && s.lock.Some? ==>
              AdvanceRecovery(s, ok) ==
              s.(lock := if s.lock.value.inode == s.recovery.inode then None else s.lock, recovery := NoRecovery)
  {
  }

  /** What passes outside: a crash forgets the call and keeps its lock; a power loss ends every container,
      and leaves the ledger or what was durable of it, and the lock or none. */
  lemma OutsideLeaves(s: State, gen: nat, retire: bool, ledgerKept: bool, lock: Option<Lock>)
    ensures Do(s, Crash) == s.(call := NoCall, recovery := NoRecovery)
    ensures Enabled(s, Acquire(gen, retire)) ==>
              Do(s, Acquire(gen, retire)) ==
              s.(lock := Some(Lock(s.inodes, false)), inodes := s.inodes + 1, call := Reading(gen, retire))
    ensures gen in s.pending ==>
              && Do(s, Appear(gen)) == s.(pending := s.pending - {gen}, live := s.live + {gen})
              && Do(s, Abandon(gen)) == s.(pending := s.pending - {gen})
    ensures gen in s.live ==> Do(s, Exit(gen)) == s.(live := s.live - {gen})
    ensures Enabled(s, PowerLoss(ledgerKept, lock)) ==>
              var kept := if ledgerKept then s.ledger else s.durable;
              Do(s, PowerLoss(ledgerKept, lock)) ==
              s.(ledger := kept, durable := kept, lock := if s.lock.None? then None else lock, live := {},
                 pending := {}, call := NoCall, recovery := NoRecovery)
    ensures forall inode: nat :: Enabled(s, Recover(gen, inode)) ==>
              Do(s, Recover(gen, inode)) == s.(recovery := Removing(inode))
  {
    hide Advance, AdvanceRecovery;
  }

  // ----- what every step keeps ------------------------------------------------------------------

  predicate Rising(gens: seq<nat>) {
    forall i, j :: 0 <= i < j < |gens| ==> gens[i] < gens[j]
  }

  predicate CallInv(s: State) {
    && (!s.call.NoCall? ==> s.lock.Some? && s.recovery.NoRecovery?)
    && (!s.recovery.NoRecovery? ==> s.lock.Some? && s.recovery.inode == s.lock.value.inode)
    && (s.call.Reading? && !s.call.retire ==> s.call.gen >= 1)
    && ((s.call.Retiring? || s.call.Revoking?) && !s.call.retire ==> s.call.gen > s.ledger)
    && (s.call.Writing? || s.call.Renaming? ==> s.call.gen > s.ledger)
    && (s.call.Syncing? ==> s.durable < s.call.gen == s.ledger)
    && (s.call.Launching? ==> 1 <= s.call.gen == s.ledger == s.durable)
    && (s.call.Syncing? || s.call.Launching? ==> forall g :: g in s.launched ==> g < s.call.gen)
  }

  predicate Inv(s: State) {
    && s.durable <= s.ledger
    && Rising(s.launched)
    && (forall g :: g in s.launched ==> 1 <= g <= s.durable)
    && (forall g :: g in s.live + s.pending ==> g in s.launched)
    && CallInv(s)
  }

  lemma LaunchKeepsInv(s: State, ok: bool, partly: bool)
    requires Inv(s) && s.call.Launching?
    ensures Inv(Advance(s, ok, partly))
  {
    assert forall i :: 0 <= i < |s.launched| ==> s.launched[i] in s.launched;
  }

  lemma MoveKeepsInv(s: State, ok: bool, partly: bool)
    requires Inv(s) && !s.call.NoCall? && !s.call.Launching?
    ensures Inv(Advance(s, ok, partly))
  {
    hide Rising;
  }

  lemma RestKeepsInv(s: State, e: Event)
    requires Inv(s) && Enabled(s, e) && !e.Move?
    ensures Inv(Do(s, e))
  {
    hide Rising, Advance;
  }

  lemma StepKeepsInv(s: State, e: Event)
    requires Inv(s)
    ensures Inv(Step(s, e))
  {
    if Enabled(s, e) {
      if !e.Move? { RestKeepsInv(s, e); }
      else if s.call.Launching? { LaunchKeepsInv(s, e.ok, e.partly); }
      else { MoveKeepsInv(s, e.ok, e.partly); }
    }
  }

  lemma RunKeepsInv(es: seq<Event>)
    ensures Inv(Run(es))
    decreases |es|
  {
    if es != [] {
      RunKeepsInv(es[..|es| - 1]);
      StepKeepsInv(Run(es[..|es| - 1]), es[|es| - 1]);
    }
  }

  /** Every launch that ever ran had a generation above all earlier ones and above nothing it had
      not first made durable: none is repeated, none is stale, whatever crashes and recoveries lie between. */
  lemma LaunchesRise(es: seq<Event>)
    ensures Rising(Run(es).launched)
    ensures forall g :: g in Run(es).launched ==> 1 <= g <= Run(es).durable
    ensures forall g :: g in Run(es).live + Run(es).pending ==> g in Run(es).launched
  {
    RunKeepsInv(es);
  }

  lemma LedgerRisesByStep(s: State, e: Event)
    requires Inv(s)
    ensures s.durable <= Step(s, e).durable
    ensures !e.PowerLoss? ==> s.ledger <= Step(s, e).ledger
    ensures s.launched <= Step(s, e).launched
    ensures Step(s, e).ledger != s.ledger && !e.PowerLoss? ==> s.call.Renaming? && Step(s, e).ledger == s.call.gen
  {
  }

  /** The durable ledger never falls; the visible one falls only by a power loss, and then only
      past generations that were never launched. */
  lemma LedgerRises(es: seq<Event>, more: seq<Event>)
    ensures Run(es).durable <= Run(es + more).durable
    ensures Run(es).launched <= Run(es + more).launched
    ensures (forall e :: e in more ==> !e.PowerLoss?) ==> Run(es).ledger <= Run(es + more).ledger
    decreases |more|
  {
    hide Step, Inv;
    if more == [] {
      assert es + more == es;
    } else {
      var most := more[..|more| - 1];
      LedgerRises(es, most);
      assert (es + more)[..|es + more| - 1] == es + most;
      RunKeepsInv(es + most);
      LedgerRisesByStep(Run(es + most), more[|more| - 1]);
      assert forall e :: e in most ==> e in more;
      assert more[|more| - 1] in more;
    }
  }

  /** A generation at or below the durable ledger is never launched again: not by the calls that
      are running, not after a crash, not after a recovery. */
  lemma StaleNeverRuns(es: seq<Event>, more: seq<Event>, gen: nat)
    requires gen <= Run(es).durable && Run(es).call != Launching(gen)
    ensures gen in Run(es + more).launched ==> gen in Run(es).launched
    ensures Run(es + more).call != Launching(gen)
    decreases |more|
  {
    if more == [] {
      assert es + more == es;
    } else {
      var most := more[..|more| - 1];
      StaleNeverRuns(es, most, gen);
      LedgerRises(es, most);
      RunKeepsInv(es + most);
      assert (es + more)[..|es + more| - 1] == es + most;
      LaunchIsFresh(Run(es + most), more[|more| - 1], gen);
    }
  }

  lemma LaunchIsFresh(s: State, e: Event, gen: nat)
    requires Inv(s) && gen <= s.durable && s.call != Launching(gen)
    ensures gen in Step(s, e).launched ==> gen in s.launched
    ensures Step(s, e).call != Launching(gen)
  {
  }

  // ----- one container at a time --------------------------------------------------------------------

  /** A launch takes the recorded container for gone while it may still appear. */
  predicate Hasty(s: State, e: Event) {
    s.ledger in s.pending && e.Move? && e.ok && s.call.Retiring? && !s.call.retire
  }

  predicate Patient(es: seq<Event>)
    decreases |es|
  {
    es == [] || (Patient(es[..|es| - 1]) && !Hasty(Run(es[..|es| - 1]), es[|es| - 1]))
  }

  predicate Empty(s: State) {
    s.live == {} && s.pending == {}
  }

  /** A launch that has seen its predecessor gone. */
  predicate Cleared(c: Call) {
    (c.Revoking? && !c.retire) || c.Writing? || c.Renaming? || c.Syncing? || c.Launching?
  }

  predicate OneOwner(s: State) {
    && s.live + s.pending <= {s.ledger}
    && !(s.ledger in s.live && s.ledger in s.pending)
    && (Cleared(s.call) ==> Empty(s))
  }

  lemma PatientStepKeepsOne(s: State, e: Event)
    requires Inv(s) && OneOwner(s) && !Hasty(s, e)
    ensures OneOwner(Step(s, e))
  {
  }

  /** If no launch was hasty, at most one container lives or is on its way, and it is the ledger's;
      retirements and recoveries may be as hasty as they like. */
  lemma OneContainer(es: seq<Event>)
    requires Patient(es)
    ensures OneOwner(Run(es))
    ensures |Run(es).live| <= 1
    decreases |es|
  {
    if es != [] {
      OneContainer(es[..|es| - 1]);
      RunKeepsInv(es[..|es| - 1]);
      PatientStepKeepsOne(Run(es[..|es| - 1]), es[|es| - 1]);
    }
    AtMostThat(Run(es).live, Run(es).ledger);
  }

  lemma AtMostThat(live: set<nat>, gen: nat)
    requires live <= {gen}
    ensures |live| <= 1
  {
    if live != {} { assert live == {gen}; }
  }

  /** A launch that took its predecessor for gone goes on to start its own container. */
  lemma ClearedLaunches(es: seq<Event>, was: nat, young: nat) returns (more: seq<Event>)
    requires Run(es).call == Revoking(young, false) && was in Run(es).pending
    ensures Run(es + more).call == Unlocking(Launched) && {was, young} <= Run(es + more).pending
  {
    var fine := Move(true, false);
    var s := Run(es);
    RunOneMore(es, fine);
    RunOneMore(es + [fine], fine);
    assert Run(es + [fine] + [fine]).call == Renaming(young) && was in Run(es + [fine] + [fine]).pending;
    RunOneMore(es + [fine] + [fine], fine);
    var synced := es + [fine] + [fine] + [fine];
    assert Run(synced).call == Syncing(young) && was in Run(synced).pending;
    RunOneMore(synced, fine);
    RunOneMore(synced + [fine], fine);
    more := [fine, fine, fine, fine, fine];
    assert es + more == synced + [fine] + [fine];
  }

  /** And one hasty launch, after whatever events, is enough for two containers at once: no weaker
      condition would do. */
  lemma HasteOverlaps(es: seq<Event>, e: Event) returns (more: seq<Event>)
    requires Hasty(Run(es), e)
    ensures more != [] && more[0] == e
    ensures |Run(es + more).live| >= 2
  {
    var was, young := Run(es).ledger, Run(es).call.gen;
    RunKeepsInv(es);
    RunOneMore(es, e);
    var rest := ClearedLaunches(es + [e], was, young);
    var ready := es + [e] + rest;
    RunOneMore(ready, Appear(was));
    RunOneMore(ready + [Appear(was)], Appear(young));
    more := [e] + rest + [Appear(was), Appear(young)];
    assert es + more == ready + [Appear(was)] + [Appear(young)];
    assert {was, young} <= Run(es + more).live;
    SubsetIsSmaller({was, young}, Run(es + more).live);
  }

  lemma FirstIsWriting() returns (es: seq<Event>)
    ensures Run(es) == INITIAL.(lock := Some(Lock(0, false)), inodes := 1, call := Writing(1))
  {
    RunOneMore([], Acquire(1, false));
    es := [] + [Acquire(1, false)];
    assert Run(es) == INITIAL.(lock := Some(Lock(0, false)), inodes := 1, call := Reading(1, false));
    RunOneMore(es, Move(true, false));
    es := es + [Move(true, false)];
  }

  lemma FirstIsOnRecord() returns (es: seq<Event>)
    ensures Run(es) == INITIAL.(ledger := 1, lock := Some(Lock(0, false)), inodes := 1, call := Syncing(1))
  {
    es := FirstIsWriting();
    RunOneMore(es, Move(true, false));
    es := es + [Move(true, false)];
    assert Run(es) == INITIAL.(lock := Some(Lock(0, true)), inodes := 1, call := Renaming(1));
    RunOneMore(es, Move(true, false));
    es := es + [Move(true, false)];
  }

  lemma FirstIsLaunched() returns (es: seq<Event>)
    ensures Run(es) == INITIAL.(ledger := 1, durable := 1, lock := Some(Lock(0, false)), inodes := 1, pending := {1},
                                launched := [1], call := Unlocking(Launched))
  {
    es := FirstIsOnRecord();
    RunOneMore(es, Move(true, false));
    es := es + [Move(true, false)];
    assert Run(es) == INITIAL.(ledger := 1, durable := 1, lock := Some(Lock(0, false)), inodes := 1,
                               call := Launching(1));
    RunOneMore(es, Move(true, false));
    es := es + [Move(true, false)];
  }

  /** Haste needs no crash: a second launch that starts before the first container exists. */
  lemma HasteHappens() returns (es: seq<Event>)
    ensures Run(es).call == Retiring(2, false) && Hasty(Run(es), Move(true, false))
  {
    es := FirstIsLaunched();
    RunOneMore(es, Move(true, false));
    es := es + [Move(true, false)];
    RunOneMore(es, Acquire(2, false));
    es := es + [Acquire(2, false)];
    RunOneMore(es, Move(true, false));
    es := es + [Move(true, false)];
  }

  // ----- what a removal leaves ----------------------------------------------------------------------

  /** A removal, by a call or by a recovery, that is over and confirmed. */
  predicate Removes(s: State, e: Event) {
    (e.Move? && e.ok && s.call.Retiring?) || (e.RecoveryMove? && e.ok && s.recovery.Removing?)
  }

  /** The last removal of the run looked while its container could still appear. */
  predicate Overlooked(es: seq<Event>)
    decreases |es|
  {
    es != [] &&
    var s, e := Run(es[..|es| - 1]), es[|es| - 1];
    if Removes(s, e) then s.ledger in s.pending else Overlooked(es[..|es| - 1])
  }

  /** A retirement or a recovery that has seen its container gone and is still at work or just over. */
  predicate Removed(s: State) {
    (s.call.Revoking? && s.call.retire) || s.call == Unlocking(Retired) || s.recovery.Clearing? || s.recovery.Dropping?
  }

  lemma RemovedStep(s: State, e: Event)
    requires Inv(s) && OneOwner(s) && !Hasty(s, e)
    requires Removed(s) ==> Empty(s)
    requires Removes(s, e) ==> s.ledger !in s.pending
    ensures Removed(Step(s, e)) ==> Empty(Step(s, e))
  {
  }

  /** A retirement or recovery leaves no container and none on its way, unless it is the very one
      that looked too early; earlier ones may have. */
  lemma {:induction false} RemovalLeavesNone(es: seq<Event>)
    requires Patient(es) && Removed(Run(es)) && !Overlooked(es)
    ensures Empty(Run(es))
    decreases |es|
  {
    var most, e := es[..|es| - 1], es[|es| - 1];
    RunKeepsInv(most);
    OneContainer(most);
    if !Removes(Run(most), e) && Removed(Run(most)) { RemovalLeavesNone(most); }
    RemovedStep(Run(most), e);
  }

  /** The removal itself is exact: right after it nothing is left if and only if the container could
      not appear any more. */
  lemma RemovalIsExact(es: seq<Event>, e: Event)
    requires Patient(es) && Removes(Run(es), e) && !Hasty(Run(es), e)
    ensures Empty(Run(es + [e])) <==> Run(es).ledger !in Run(es).pending
  {
    OneContainer(es);
    RunOneMore(es, e);
  }

  /** And a removal that looked too early can be confirmed, finished and followed by its container. */
  lemma EarlyLookLeavesOne(es: seq<Event>, e: Event) returns (more: seq<Event>)
    requires Removes(Run(es), e) && Run(es).ledger in Run(es).pending && !Hasty(Run(es), e)
    ensures more != [] && more[0] == e
    ensures Run(es + more).ledger in Run(es + more).live
    ensures if Run(es).call.Retiring? then Run(es + more).call == Unlocking(Retired)
            else Run(es + more).recovery.NoRecovery? && Run(es + more).lock.None?
  {
    RunKeepsInv(es);
    var gen := Run(es).ledger;
    RunOneMore(es, e);
    if e.Move? {
      var fine := Move(true, false);
      RunOneMore(es + [e], fine);
      RunOneMore(es + [e] + [fine], Appear(gen));
      more := [e, fine, Appear(gen)];
      assert es + more == es + [e] + [fine] + [Appear(gen)];
    } else {
      var fine := RecoveryMove(true);
      RunOneMore(es + [e], fine);
      RunOneMore(es + [e] + [fine], fine);
      RunOneMore(es + [e] + [fine] + [fine], Appear(gen));
      more := [e, fine, fine, Appear(gen)];
      assert es + more == es + [e] + [fine] + [fine] + [Appear(gen)];
    }
  }

  // ----- a lock left behind ----------------------------------------------------------------------------

  /** A lock whose call died stops everything: nothing is launched, recorded or unlocked until an
      operator names that very lock. */
  lemma OnlyRecoveryUnlocks(es: seq<Event>, more: seq<Event>)
    requires Run(es).call.NoCall? && Run(es).recovery.NoRecovery? && Run(es).lock.Some?
    requires forall e :: e in more ==> !e.PowerLoss? && !(e.Recover? && e.inode == Run(es).lock.value.inode)
    ensures Run(es + more).lock == Run(es).lock && Run(es + more).call.NoCall? && Run(es + more).recovery.NoRecovery?
    ensures Run(es + more).ledger == Run(es).ledger && Run(es + more).launched == Run(es).launched
    decreases |more|
  {
    if more == [] {
      assert es + more == es;
    } else {
      var most := more[..|more| - 1];
      assert forall e :: e in most ==> e in more;
      OnlyRecoveryUnlocks(es, most);
      assert (es + more)[..|es + more| - 1] == es + most;
      assert more[|more| - 1] in more;
    }
  }

  // ----- calls in which nothing fails ----------------------------------------------------------------

  function Moves(s: State, n: nat): (s': State)
    decreases n
  {
    if n == 0 then s else Step(Moves(s, n - 1), Move(true, false))
  }

  lemma MovesMore(s: State, n: nat)
    requires !Moves(s, n).call.NoCall?
    ensures Moves(s, n + 1) == Advance(Moves(s, n), true, false)
  {
    hide Advance;
  }

  /** Where a clean call stands after the lock was taken and the ledger read. */
  lemma CallReads(s: State, gen: nat, retire: bool)
    requires Enabled(s, Acquire(gen, retire))
    ensures var lock := Some(Lock(s.inodes, false));
            Moves(Step(s, Acquire(gen, retire)), 1) ==
            s.(lock := lock, inodes := s.inodes + 1, call := AfterRead(s, gen, retire))
  {
    OutsideLeaves(s, gen, retire, true, None);
    var taken := Step(s, Acquire(gen, retire));
    MoveAnswers(taken, true, false);
    assert Moves(taken, 0) == taken;
    MovesMore(taken, 0);
  }

  /** The five moves that record and launch a generation and give the lock back. */
  lemma CallLaunches(s: State, gen: nat)
    requires s.call == Writing(gen) && s.lock.Some?
    ensures Moves(s, 5) ==
            s.(ledger := gen, durable := gen, lock := None, pending := s.pending + {gen},
               launched := s.launched + [gen], call := NoCall)
  {
    assert Moves(s, 0) == s;
    MovesMore(s, 0);
    MovesMore(s, 1);
    MovesMore(s, 2);
    MovesMore(s, 3);
    MovesMore(s, 4);
  }

  /** The two moves that see the recorded container gone. */
  lemma CallRevokes(s: State, gen: nat, retire: bool)
    requires s.call == Retiring(gen, retire)
    ensures Moves(s, 2) == s.(live := s.live - {s.ledger},
                              call := if retire then Unlocking(Retired) else Writing(gen))
  {
    assert Moves(s, 0) == s;
    MovesMore(s, 0);
    MovesMore(s, 1);
  }

  lemma {:induction false} MovesJoin(s: State, m: nat, n: nat)
    ensures Moves(s, m + n) == Moves(Moves(s, m), n)
    decreases n
  {
    hide Step;
    if n > 0 { MovesJoin(s, m, n - 1); }
  }

  /** From any free lock: a launch above the ledger in which nothing fails removes the recorded container,
      records its generation durably, starts it and gives the lock back; one that is not above the ledger
      changes nothing but the lock's inode. */
  lemma CleanLaunch(s: State, gen: nat)
    requires Enabled(s, Acquire(gen, false))
    ensures var taken := Step(s, Acquire(gen, false));
            && (gen > s.ledger ==>
                  Moves(taken, if s.ledger == 0 then 6 else 8) ==
                  s.(ledger := gen, durable := gen, inodes := s.inodes + 1,
                     live := if s.ledger == 0 then s.live else s.live - {s.ledger},
                     pending := s.pending + {gen}, launched := s.launched + [gen]))
            && (gen <= s.ledger ==>
                  && Moves(taken, 1).call == Unlocking(Stale)
                  && Moves(taken, 2) == s.(inodes := s.inodes + 1))
  {
    hide Step, Advance;
    var taken := Step(s, Acquire(gen, false));
    CallReads(s, gen, false);
    var read := Moves(taken, 1);
    if gen <= s.ledger {
      MovesMore(taken, 1);
      LockGoes(read);
    } else if s.ledger == 0 {
      CallLaunches(read, gen);
      MovesJoin(taken, 1, 5);
    } else {
      CallRevokes(read, gen, false);
      MovesJoin(taken, 1, 2);
      CallLaunches(Moves(taken, 3), gen);
      MovesJoin(taken, 3, 5);
    }
  }

  lemma LockGoes(s: State)
    requires s.call.Unlocking? && s.lock.Some?
    ensures Advance(s, true, false) == s.(lock := if s.lock.value.next then s.lock else None, call := NoCall)
  {
  }

  /** And a retirement in which nothing fails leaves the recorded container gone and the ledger as it is. */
  lemma CleanRetirement(s: State, gen: nat)
    requires Enabled(s, Acquire(gen, true))
    ensures var taken := Step(s, Acquire(gen, true));
            Moves(taken, if s.ledger == 0 then 2 else 4) ==
            s.(inodes := s.inodes + 1, live := if s.ledger == 0 then s.live else s.live - {s.ledger})
  {
    hide Step, Advance;
    var taken := Step(s, Acquire(gen, true));
    CallReads(s, gen, true);
    var read := Moves(taken, 1);
    if s.ledger == 0 {
      MovesMore(taken, 1);
      LockGoes(read);
    } else {
      CallRevokes(read, gen, true);
      MovesJoin(taken, 1, 2);
      MovesMore(taken, 3);
      LockGoes(Moves(taken, 3));
    }
  }

  // ----- the two programs -------------------------------------------------------------------------------

  /** What an attempt comes to: `Locked` is a lock directory already there, `Died` a crash, and
      `Unconfirmed` a lock that could not be dropped. */
  datatype Ended = Locked | Died | Answer(result: Result) | Recovered | Unconfirmed

  /** The state apart from the containers, which come and go by themselves. */
  function Calm(s: State): (s': State) {
    s.(live := {}, pending := {})
  }

  class Host {
    var s: State
    ghost var events: seq<Event>

    ghost predicate Valid()
      reads this
    {
      s == Run(events)
    }

    constructor ()
      ensures Valid() && events == []
    {
      s := INITIAL;
      events := [];
    }

    method Perform(e: Event)
      requires Valid() && Enabled(s, e)
      modifies this
      ensures Valid() && s == Do(old(s), e) && events == old(events) + [e]
    {
      s := Do(s, e);
      events := events + [e];
      RunOneMore(old(events), e);
    }

    /** Containers come and go meanwhile, and the caller may die. */
    method Await() returns (died: bool)
      requires Valid()
      modifies this
      ensures Valid() && old(events) <= events
      ensures Calm(s) == if died then Calm(old(s)).(call := NoCall, recovery := NoRecovery) else Calm(old(s))
    {
      var moves: nat := *;
      while moves > 0
        invariant Valid() && old(events) <= events
        invariant s == old(s).(live := s.live, pending := s.pending)
      {
        var e: Event := *;
        if (e.Appear? || e.Abandon? || e.Exit?) && Enabled(s, e) { Perform(e); }
        moves := moves - 1;
      }
      died := *;
      if died { Perform(Crash); }
    }

    method Attempt() returns (died: bool, ok: bool, partly: bool)
      requires Valid() && !s.call.NoCall?
      modifies this
      ensures Valid() && old(events) <= events
      ensures Calm(s) == if died then Calm(old(s)).(call := NoCall, recovery := NoRecovery)
              else Calm(Advance(old(s), ok, partly))
    {
      died := Await();
      ok := *;
      partly := *;
      if !died { Perform(Move(ok, partly)); }
    }

    /** Read the ledger and see its container gone. */
    method Fence() returns (died: bool)
      requires Valid() && s.call.Reading? && !s.call.retire && s.call.gen >= 1
      modifies this
      ensures Valid() && old(events) <= events
      ensures s.launched == old(s.launched) && s.ledger == old(s.ledger)
      ensures if died then s.call.NoCall?
              else (s.call == Writing(old(s.call.gen)) && s.call.gen > s.ledger)
                   || s.call == Unlocking(Failed) || (s.call == Unlocking(Stale) && old(s.call.gen) <= s.ledger)
    {
      var ok, partly;
      died, ok, partly := Attempt();
      if !died && s.call.Retiring? { died, ok, partly := Attempt(); }
      if !died && s.call.Revoking? { died, ok, partly := Attempt(); }
    }

    /** Write, rename and flush the ledger, and only then launch. */
    method Record() returns (died: bool)
      requires Valid() && s.call.Writing? && s.call.gen > s.ledger
      modifies this
      ensures Valid() && old(events) <= events
      ensures if died then s.call.NoCall? else s.call == Unlocking(Failed) || s.call == Unlocking(Launched)
      ensures !died && s.call.result.Launched? ==>
                s.launched == old(s.launched) + [old(s.call.gen)] && s.ledger == s.durable == old(s.call.gen)
      ensures died || s.call.result.Failed? ==> s.launched == old(s.launched)
    {
      var ok, partly;
      died, ok, partly := Attempt();
      if !died && s.call.Renaming? { died, ok, partly := Attempt(); }
      if !died && s.call.Syncing? { died, ok, partly := Attempt(); }
      if !died && s.call.Launching? { died, ok, partly := Attempt(); }
    }

    /** `authority` for a launch: a refused or failed attempt launches nothing, and an accepted one
        launched exactly this generation after recording it. */
    method Launch(gen: nat) returns (end: Ended)
      requires Valid() && gen >= 1
      modifies this
      ensures Valid() && old(events) <= events
      ensures end.Locked? <==> !Enabled(old(s), Acquire(gen, false))
      ensures end.Locked? ==> s == old(s)
      ensures end.Answer? && end.result.Launched? ==>
                s.launched == old(s.launched) + [gen] && s.ledger == s.durable == gen > old(s.ledger)
      ensures end.Answer? && !end.result.Launched? ==> s.launched == old(s.launched)
      ensures end.Answer? && end.result.Stale? ==> gen <= old(s.ledger) == s.ledger
    {
      if !Enabled(s, Acquire(gen, false)) { return Locked; }
      Perform(Acquire(gen, false));
      var died := Fence();
      if !died && s.call.Writing? { died := Record(); }
      if died { return Died; }
      var result := s.call.result;
      var ok, partly;
      died, ok, partly := Attempt();
      end := if died then Died else if s.lock.None? then Answer(result) else Unconfirmed;
    }

    /** `retireRuntimeIdentity`: no generation is recorded, and none launched. */
    method Retire() returns (end: Ended)
      requires Valid()
      modifies this
      ensures Valid() && old(events) <= events
      ensures end.Locked? <==> !Enabled(old(s), Acquire(0, true))
      ensures s.ledger == old(s.ledger) && s.launched == old(s.launched)
      ensures end.Answer? ==> end.result.Retired? || end.result.Failed?
    {
      if !Enabled(s, Acquire(0, true)) { return Locked; }
      Perform(Acquire(0, true));
      var died, ok, partly := Attempt();
      if !died && s.call.Retiring? { died, ok, partly := Attempt(); }
      if !died && s.call.Revoking? { died, ok, partly := Attempt(); }
      if died { return Died; }
      var result := s.call.result;
      died, ok, partly := Attempt();
      end := if died then Died else if s.lock.None? then Answer(result) else Unconfirmed;
    }

    /** `recover-runtime`, the services being stopped: the exact generation and lock, or nothing. */
    method RecoverRuntime(gen: nat, inode: nat) returns (end: Ended)
      requires Valid() && s.call.NoCall? && s.recovery.NoRecovery?
      modifies this
      ensures Valid() && old(events) <= events
      ensures s.ledger == old(s.ledger) && s.launched == old(s.launched)
      ensures end.Recovered? ==> old(s.lock.Some? && s.lock.value.inode == inode && s.ledger == gen) && s.lock.None?
      ensures !end.Recovered? && old(s.lock.Some?) ==> s.lock.Some? && s.lock.value.inode == old(s.lock.value.inode)
    {
      if !Enabled(s, Recover(gen, inode)) { return Unconfirmed; }
      Perform(Recover(gen, inode));
      while !s.recovery.NoRecovery?
        invariant Valid() && old(events) <= events && s.call.NoCall?
        invariant s.ledger == old(s.ledger) && s.launched == old(s.launched)
        invariant !s.recovery.NoRecovery? ==> s.recovery.inode == inode
        invariant !s.recovery.NoRecovery? ==> s.lock.Some? && s.lock.value.inode == inode
        invariant s.lock.Some? ==> s.lock.value.inode == inode
        decreases if s.recovery.Removing? then 3 else if s.recovery.Clearing? then 2
          else if s.recovery.Dropping? then 1 else 0
      {
        var died := Await();
        if died { return Died; }
        var ok: bool := *;
        Perform(RecoveryMove(ok));
      }
      end := if s.lock.None? then Recovered else Unconfirmed;
    }
  }
}
