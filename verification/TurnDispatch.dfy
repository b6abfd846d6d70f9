/** Turn dispatch of the supervisor (apps/supervisor/src/main.ts) in the personal profile, where
    conversations keep their runtimes: one supervisor at a time, which may die and restart anywhere. */
module TurnDispatch {
  import opened Sets

  type Id = nat
  type Session = nat

  datatype Option<T> = None | Some(value: T)

  datatype OpState = Queued | Dispatching | Running | AwaitingUser | Succeeded | Broken | Interrupted | Uncertain

  datatype Turn = Turn(session: Session, state: OpState)

  /** A runtime held in memory. */
  datatype Runtime = Runtime(gen: nat, operation: Option<Id>, retiring: bool)

  datatype Membership = Starting | Active | Idle | Protected | Leaving | Unknown

  /** A row of `conversation_runtimes`. */
  datatype Member = Member(gen: nat, state: Membership)

  /** Where the dispatch loop stands; `rest` is what the tick found besides. */
  datatype Phase =
    | Down
    | Resting
    | Picking(todo: seq<Id>)
    | Admitting(o: Id, rest: seq<Id>, gen: nat, reuse: bool)
    | Creating(o: Id, rest: seq<Id>, gen: nat)
    | Sending(o: Id, rest: seq<Id>, gen: nat, reuse: bool)
    | Marking(o: Id, rest: seq<Id>)
    | Failing(o: Id, rest: seq<Id>, gen: nat, attempted: bool, reuse: bool)

  datatype State = State(
    ops: map<Id, Turn>,
    acked: set<Id>,                   // uncertain turns that the user has acknowledged
    gens: map<Session, nat>,
    members: map<Session, Member>,
    sent: seq<Id>,                    // native requests, in order
    next: nat,
    runtimes: map<Session, Runtime>,
    repairs: set<Id>,                 // turns that still have to be recorded as uncertain
    orphans: map<(Session, nat), bool>, // runtimes that left memory before their retirement was admitted
                                        // (false) or concluded (true)
    phase: Phase)

  datatype Limits = Limits(turns: nat, runtimes: nat)

  datatype Event =
    | Submit(id: Id, session: Session)
    | CancelQueued(id: Id)
    | Acknowledge(id: Id)
    | Tick(found: seq<Id>)
    | Skip
    | Refuse
    | Choose
    | Replace                         // the runtime's profile or credentials changed: it is retired first
    | Admit(committed: bool, replied: bool)
    | Decline                         // the workspace is busy
    | Create(made: bool, attempted: bool)
    | Send(delivered: bool, replied: bool)
    | MarkRunning
    | Conclude(saved: bool, bare: bool)
    | Complete(session: Session, outcome: OpState)
    | Halt(session: Session)          // emergency stop
    | Clear(session: Session)
    | Ask(session: Session)
    | Classify(session: Session, state: Membership)
    | Poison(session: Session)
    | Repair(id: Id)
    | Doubt(id: Id)                   // an interruption that could not be confirmed
    | Retire(session: Session, automatic: bool)
    | Retired(session: Session, confirmed: bool)
    | Dismiss(session: Session, gen: nat)
    | Dismissed(session: Session, gen: nat, confirmed: bool)
    | Reconcile(session: Session)     // a member without a runtime, found absent
    | Crash
    | Restart(absent: set<Session>)

  const START: State := State(map[], {}, map[], map[], [], 1, map[], {}, map[], Down)

  // ----- turns ------------------------------------------------------------------------------------

  predicate Live(st: OpState) { st.Dispatching? || st.Running? || st.AwaitingUser? }

  function LiveTurns(ops: map<Id, Turn>): (r: set<Id>) {
    set o | o in ops && Live(ops[o].state)
  }

  predicate Busy(s: State, session: Session) {
    exists o :: o in s.ops && s.ops[o].session == session && Live(s.ops[o].state)
  }

  predicate InDoubt(s: State, session: Session) {
    exists o :: o in s.ops && s.ops[o].session == session && s.ops[o].state.Uncertain? && o !in s.acked
  }

  /** `update`: an uncertain turn stays uncertain, and only an unfinished one becomes uncertain. */
  function Updated(t: Turn, state: OpState): (t': Turn)
    ensures t'.session == t.session
  {
    if (!t.state.Uncertain? || state.Uncertain?)
       && (!state.Uncertain? || t.state.Queued? || Live(t.state) || t.state.Uncertain?)
    then t.(state := state) else t
  }

  function Update(s: State, o: Id, state: OpState): (s': State)
    ensures s' == s.(ops := s'.ops) && s'.ops.Keys == s.ops.Keys
  {
    if o in s.ops then s.(ops := s.ops[o := Updated(s.ops[o], state)]) else s
  }

  function SetMember(s: State, session: Session, gen: nat, state: Membership): (s': State)
    ensures s' == s.(members := s'.members) && s'.members.Keys == s.members.Keys
  {
    if session in s.members && s.members[session].gen == gen
    then s.(members := s.members[session := Member(gen, state)]) else s
  }

  function DropMember(s: State, session: Session, gen: nat): (s': State)
    ensures s' == s.(members := s'.members) && s'.members.Keys <= s.members.Keys
  {
    if session in s.members && s.members[session].gen == gen then s.(members := s.members - {session}) else s
  }

  predicate Current(s: State, session: Session, gen: nat) {
    session in s.gens && s.gens[session] == gen
  }

  /** A runtime that leaves memory and is retired apart from the loop. */
  function Orphaned(s: State, session: Session, gen: nat, admitted: bool): (s': State)
    ensures s' == s.(runtimes := s'.runtimes, orphans := s'.orphans)
  {
    s.(runtimes := s.runtimes - {session}, orphans := s.orphans[(session, gen) := admitted])
  }

  /** A runtime confirmed to be gone leaves memory together with its row. */
  function Forgotten(s: State, session: Session): (s': State)
    requires session in s.runtimes
  {
    DropMember(s.(runtimes := s.runtimes - {session}), session, s.runtimes[session].gen)
  }

  // ----- the loop -----------------------------------------------------------------------------------

  /** What is left of the loop's checks when it settles on a turn and a generation. The others (no
      doubt about an earlier turn, the runtime free and not retiring) may be stale by then and are made
      again by the admission and by the fence. */
  predicate MayChoose(l: Limits, s: State, o: Id) {
    && o in s.ops
    && var session := s.ops[o].session;
       && !Busy(s, session)
       && |LiveTurns(s.ops)| < l.turns
       && (session !in s.runtimes ==> session !in s.members && |s.members| < l.runtimes)
  }

  /** The running conversation that the turn is to use is still there, current and free. */
  predicate Reusable(s: State, session: Session, gen: nat) {
    && session in s.runtimes && s.runtimes[session].gen == gen
    && !s.runtimes[session].retiring && s.runtimes[session].operation.None?
    && session in s.gens && s.gens[session] == gen
    && session in s.members && s.members[session].gen == gen
    && (s.members[session].state.Idle? || s.members[session].state.Protected?)
  }

  function Admitted(s: State, committed: bool): (s': State)
    requires s.phase.Admitting? && s.phase.o in s.ops
  {
    var o, session, gen := s.phase.o, s.ops[s.phase.o].session, s.phase.gen;
    var s1 := if s.phase.reuse && Reusable(s, session, gen)
              then s.(runtimes := s.runtimes[session := s.runtimes[session].(operation := Some(o))]) else s;
    if !committed then s1
    else s1.(
      ops := if s.ops[o].state.Queued? then s.ops[o := s.ops[o].(state := Dispatching)] else s.ops,
      gens := s.gens[session := gen],
      members := s.members[session := Member(gen, if s.phase.reuse then Active else Starting)])
  }

  /** The fence at the moment of sending. */
  predicate MaySend(s: State) {
    && s.phase.Sending? && s.phase.o in s.ops
    && var session := s.ops[s.phase.o].session;
       && session in s.runtimes && s.runtimes[session].gen == s.phase.gen
       && !s.runtimes[session].retiring
       && session in s.gens && s.gens[session] == s.phase.gen
       && !InDoubt(s, session)
  }

  /** The catch: with no runtime in memory and none attempted, nothing is thought to have been sent. */
  predicate Unstarted(s: State) {
    s.phase.Failing? && s.phase.o in s.ops && s.ops[s.phase.o].session !in s.runtimes && !s.phase.attempted
  }

  function Verdict(s: State): (st: OpState)
    requires s.phase.Failing? && s.phase.o in s.ops
    ensures st.Uncertain? || st.Broken?
  {
    if !s.ops[s.phase.o].state.Queued? && !Unstarted(s) then Uncertain else Broken
  }

  /** What the catch records of the turn and, without a runtime in memory, of its row: a row that never
      got as far as an identity (`bare`) is dropped when nothing was started. */
  function Concluded(s: State, bare: bool): (s': State)
    requires s.phase.Failing? && s.phase.o in s.ops
    ensures s' == s.(ops := s.ops[s.phase.o := Updated(s.ops[s.phase.o], Verdict(s))], members := s'.members)
    ensures s'.members.Keys <= s.members.Keys && forall m :: m in s'.members ==> s'.members[m].gen == s.members[m].gen
    ensures s.ops[s.phase.o].session in s.runtimes ==> s'.members == s.members
    ensures forall m :: m in s.members && m != s.ops[s.phase.o].session ==>
              m in s'.members && s'.members[m] == s.members[m]
  {
    var session, gen := s.ops[s.phase.o].session, s.phase.gen;
    var s1 := Update(s, s.phase.o, Verdict(s));
    if session in s.runtimes then s1
    else if !Unstarted(s) then SetMember(s1, session, gen, Unknown)
    else if bare && session in s.members && s.members[session].state.Starting? then DropMember(s1, session, gen)
    else s1
  }

  predicate Final(st: OpState) { st.Succeeded? || st.Broken? || st.Interrupted? }

  predicate Picks(e: Event) { e.Tick? || e.Skip? || e.Refuse? || e.Choose? || e.Replace? }

  predicate Moves(e: Event) { e.Admit? || e.Decline? || e.Create? || e.Send? || e.MarkRunning? || e.Conclude? }

  predicate ByTurns(e: Event) {
    e.Submit? || e.CancelQueued? || e.Acknowledge? || e.Complete? || e.Halt? || e.Clear? || e.Ask? || e.Repair?
      || e.Doubt?
  }

  predicate ByHolding(e: Event) { e.Classify? || e.Poison? || e.Retire? || e.Dismiss? }

  predicate EndsHolding(e: Event) { e.Retired? || e.Dismissed? || e.Reconcile? }

  predicate ByProcess(e: Event) { e.Crash? || e.Restart? }

  predicate ByLoop(e: Event) { Picks(e) || Moves(e) }

  /** The loop passes over, refuses or settles on a candidate. */
  predicate MayPick(l: Limits, s: State, e: Event)
    requires Picks(e)
  {
    match e
    case Tick(found) =>
      s.phase.Resting? && (forall i :: 0 <= i < |found| ==> found[i] in s.ops && s.ops[found[i]].state.Queued?)
      && forall i, j :: 0 <= i < j < |found| ==> found[i] != found[j]
    case Skip => s.phase.Picking?
    case Refuse => s.phase.Picking? && s.phase.todo != []
    case Choose => s.phase.Picking? && s.phase.todo != [] && MayChoose(l, s, s.phase.todo[0])
    case Replace =>
      && s.phase.Picking? && s.phase.todo != [] && MayChoose(l, s, s.phase.todo[0])
      && var session := s.ops[s.phase.todo[0]].session;
         session in s.runtimes && !s.runtimes[session].retiring
         && session in s.gens && s.gens[session] == s.runtimes[session].gen
  }

  function DoPick(l: Limits, s: State, e: Event): (s': State)
    requires Picks(e) && MayPick(l, s, e)
  {
    match e
    case Tick(found) => s.(phase := Picking(found))
    case Skip => s.(phase := if s.phase.todo == [] then Resting else Picking(s.phase.todo[1..]))
    case Refuse => Update(s, s.phase.todo[0], Broken).(phase := Picking(s.phase.todo[1..]))
    case Choose =>
      var o, rest := s.phase.todo[0], s.phase.todo[1..];
      var session := s.ops[o].session;
      if session in s.runtimes then s.(phase := Admitting(o, rest, s.runtimes[session].gen, true))
      else s.(phase := Admitting(o, rest, s.next, false), next := s.next + 1)
    case Replace =>
      var o, rest := s.phase.todo[0], s.phase.todo[1..];
      Forgotten(s, s.ops[o].session).(phase := Admitting(o, rest, s.next, false), next := s.next + 1)
  }

  /** The loop takes its turn through to the end. */
  predicate MayMove(s: State, e: Event)
    requires Moves(e)
  {
    match e
    case Admit(committed, replied) =>
      && s.phase.Admitting? && s.phase.o in s.ops && (replied ==> committed)
      && (committed ==>
            if s.phase.reuse then Reusable(s, s.ops[s.phase.o].session, s.phase.gen)
            else s.ops[s.phase.o].session !in s.members && s.ops[s.phase.o].session !in s.runtimes)
    case Decline => s.phase.Admitting?
    case Create(made, attempted) => s.phase.Creating? && s.phase.o in s.ops && (made ==> attempted)
    case Send(delivered, replied) => s.phase.Sending? && (delivered || replied ==> MaySend(s))
      && (replied ==> delivered)
    case MarkRunning => s.phase.Marking?
    case Conclude(_, _) => s.phase.Failing? && s.phase.o in s.ops
  }

  function DoMove(s: State, e: Event): (s': State)
    requires Moves(e) && MayMove(s, e)
  {
    match e
    case Admit(committed, replied) =>
      var p := s.phase;
      Admitted(s, committed).(
        phase := if !replied then Failing(p.o, p.rest, p.gen, false, p.reuse)
                 else if p.reuse then Sending(p.o, p.rest, p.gen, true) else Creating(p.o, p.rest, p.gen))
    case Decline => s.(phase := Picking(s.phase.rest))
    case Create(made, attempted) =>
      var p := s.phase;
      if made then
        s.(runtimes := s.runtimes[s.ops[p.o].session := Runtime(p.gen, Some(p.o), false)],
           phase := Sending(p.o, p.rest, p.gen, false))
      else
        var s1 := s.(phase := Failing(p.o, p.rest, p.gen, attempted, false));
        if attempted then s1.(orphans := s.orphans[(s.ops[p.o].session, p.gen) := false]) else s1
    case Send(delivered, replied) =>
      var p := s.phase;
      s.(sent := if delivered then s.sent + [p.o] else s.sent,
         phase := if replied then Marking(p.o, p.rest) else Failing(p.o, p.rest, p.gen, !p.reuse, p.reuse))
    case MarkRunning =>
      var p := s.phase;
      s.(ops := if p.o in s.ops && s.ops[p.o].state.Dispatching?
                then s.ops[p.o := s.ops[p.o].(state := Running)] else s.ops,
         phase := Picking(p.rest))
    case Conclude(saved, bare) =>
      if saved then Concluded(s, bare).(phase := Picking(s.phase.rest)) else s.(phase := Resting)
  }

  /** What users and native notifications do to turns. */
  predicate MayTurn(s: State, e: Event)
    requires ByTurns(e)
  {
    match e
    case Submit(id, _) => id !in s.ops
    case CancelQueued(id) => id in s.ops && s.ops[id].state.Queued?
    case Acknowledge(id) => id in s.ops && s.ops[id].state.Uncertain?
    case Complete(session, outcome) =>
      session in s.runtimes && s.runtimes[session].operation.Some? && Final(outcome)
      && s.runtimes[session].operation.value in s.ops && Live(s.ops[s.runtimes[session].operation.value].state)
    case Halt(session) => session in s.runtimes && s.runtimes[session].operation.Some?
    case Clear(session) =>
      session in s.runtimes && s.runtimes[session].operation.Some?
      && s.runtimes[session].operation.value in s.ops && Final(s.ops[s.runtimes[session].operation.value].state)
    case Ask(session) =>
      session in s.runtimes && s.runtimes[session].operation.Some?
      && s.runtimes[session].operation.value in s.ops && Live(s.ops[s.runtimes[session].operation.value].state)
    case Repair(id) => id in s.repairs
    case Doubt(id) => id in s.ops && Live(s.ops[id].state) && !s.phase.Down?
  }

  function DoTurn(s: State, e: Event): (s': State)
    requires ByTurns(e) && MayTurn(s, e)
  {
    match e
    case Submit(id, session) => s.(ops := s.ops[id := Turn(session, Queued)])
    case CancelQueued(id) => s.(ops := s.ops[id := s.ops[id].(state := Interrupted)])
    case Acknowledge(id) => s.(acked := s.acked + {id})
    case Complete(session, outcome) =>
      var o := s.runtimes[session].operation.value;
      SetMember(s.(ops := s.ops[o := s.ops[o].(state := outcome)]), session, s.runtimes[session].gen, Idle)
    case Halt(session) => Update(s, s.runtimes[session].operation.value, Interrupted)
    case Clear(session) => s.(runtimes := s.runtimes[session := s.runtimes[session].(operation := None)])
    case Ask(session) =>
      var o := s.runtimes[session].operation.value;
      SetMember(s.(ops := s.ops[o := s.ops[o].(state := AwaitingUser)]), session, s.runtimes[session].gen, Active)
    case Repair(id) => Update(s, id, Uncertain).(repairs := s.repairs - {id})
    case Doubt(id) => s.(ops := s.ops[id := s.ops[id].(state := Uncertain)])
  }

  /** What befalls runtimes and their rows. */
  predicate MayHold(s: State, e: Event)
    requires ByHolding(e)
  {
    match e
    case Classify(session, state) =>
      session in s.runtimes && s.runtimes[session].operation.None? && !s.runtimes[session].retiring
      && (state.Idle? || state.Protected? || state.Unknown?)
    case Poison(session) => session in s.runtimes
    case Retire(session, automatic) =>
      && session in s.runtimes && !s.runtimes[session].retiring
      && session in s.gens && s.gens[session] == s.runtimes[session].gen
      && (automatic ==> s.runtimes[session].operation.None? && session in s.members
                        && s.members[session] == Member(s.runtimes[session].gen, Idle))
    case Dismiss(session, gen) => (session, gen) in s.orphans && !s.orphans[(session, gen)] && Current(s, session, gen)
  }

  function DoHold(s: State, e: Event): (s': State)
    requires ByHolding(e) && MayHold(s, e)
  {
    match e
    case Classify(session, state) => SetMember(s, session, s.runtimes[session].gen, state)
    case Poison(session) =>
      var r := s.runtimes[session];
      Orphaned(s, session, r.gen, r.retiring).(
        repairs := if r.operation.Some? then s.repairs + {r.operation.value} else s.repairs)
    case Retire(session, automatic) =>
      SetMember(s.(runtimes := s.runtimes[session := s.runtimes[session].(retiring := true)]),
                session, s.runtimes[session].gen, Leaving)
    case Dismiss(session, gen) => SetMember(s.(orphans := s.orphans[(session, gen) := true]), session, gen, Leaving)
  }

  /** How runtimes and their rows come to an end. */
  predicate MayEnd(s: State, e: Event)
    requires EndsHolding(e)
  {
    match e
    case Retired(session, _) => session in s.runtimes && s.runtimes[session].retiring
    case Dismissed(session, gen, _) => (session, gen) in s.orphans && s.orphans[(session, gen)]
    case Reconcile(session) =>
      session in s.members && session !in s.runtimes && s.phase.Resting? && Current(s, session, s.members[session].gen)
  }

  function DoEnd(s: State, e: Event): (s': State)
    requires EndsHolding(e) && MayEnd(s, e)
  {
    match e
    case Retired(session, confirmed) =>
      if confirmed then Forgotten(s, session)
      else SetMember(s.(runtimes := s.runtimes - {session}), session, s.runtimes[session].gen, Unknown)
    case Dismissed(session, gen, confirmed) =>
      var s1 := s.(orphans := s.orphans - {(session, gen)});
      if !confirmed then SetMember(s1, session, gen, Unknown)
      else if Current(s, session, gen) then DropMember(s1, session, gen) else s1
    case Reconcile(session) => s.(members := s.members - {session})
  }

  /** The process dies; a new one begins. */
  predicate MayProcess(s: State, e: Event)
    requires ByProcess(e)
  {
    match e
    case Crash => true
    case Restart(_) => s.phase.Down?
  }

  function DoProcess(s: State, e: Event): (s': State)
    requires ByProcess(e) && MayProcess(s, e)
  {
    match e
    case Crash => s.(runtimes := map[], repairs := {}, orphans := map[], phase := Down)
    case Restart(absent) =>
      s.(ops := map o | o in s.ops :: if Live(s.ops[o].state) then s.ops[o].(state := Uncertain) else s.ops[o],
         members := map m | m in s.members && !(m in absent && Current(s, m, s.members[m].gen)) ::
           if Current(s, m, s.members[m].gen) then s.members[m].(state := Unknown) else s.members[m],
         phase := Resting)
  }

  // What a step of each kind leaves alone.

  lemma PickShape(l: Limits, s: State, e: Event)
    requires Picks(e) && MayPick(l, s, e)
    ensures var s' := DoPick(l, s, e);
            && s' == s.(ops := s'.ops, members := s'.members, runtimes := s'.runtimes, next := s'.next,
                        phase := s'.phase)
            && s'.ops.Keys == s.ops.Keys && s'.members.Keys <= s.members.Keys && s'.runtimes.Keys <= s.runtimes.Keys
            && (forall m :: m in s'.members ==> s'.members[m] == s.members[m])
            && (forall m :: m in s'.runtimes ==> s'.runtimes[m] == s.runtimes[m])
            && (forall o :: o in s.ops ==> s'.ops[o] == s.ops[o] || s'.ops[o] == Updated(s.ops[o], Broken))
            && s.next <= s'.next
  {
  }

  lemma MoveShape(s: State, e: Event)
    requires Moves(e) && MayMove(s, e)
    ensures var s' := DoMove(s, e);
            && s' == s.(ops := s'.ops, gens := s'.gens, members := s'.members, sent := s'.sent, runtimes := s'.runtimes,
                            orphans := s'.orphans, phase := s'.phase)
            && s'.ops.Keys == s.ops.Keys
            && (forall o :: o in s.ops ==> s'.ops[o].session == s.ops[o].session)
  {
    if e.Admit? {
      AdmittedShape(s, e.committed);
      hide Admitted, Reusable;
    } else if e.Conclude? {
      hide Concluded, Verdict;
    } else {
      hide MaySend;
    }
  }

  lemma AdmittedShape(s: State, committed: bool)
    requires s.phase.Admitting? && s.phase.o in s.ops
    ensures var s' := Admitted(s, committed);
            && s' == s.(ops := s'.ops, gens := s'.gens, members := s'.members, runtimes := s'.runtimes)
            && s'.ops.Keys == s.ops.Keys
            && forall o :: o in s.ops ==>
                 s'.ops[o] == s.ops[o] || (s.ops[o].state.Queued? && s'.ops[o] == s.ops[o].(state := Dispatching))
  {
    hide Reusable;
  }

  lemma TurnShape(s: State, e: Event)
    requires ByTurns(e) && MayTurn(s, e)
    ensures var s' := DoTurn(s, e);
            && s' == s.(ops := s'.ops, acked := s'.acked, members := s'.members, runtimes := s'.runtimes,
                        repairs := s'.repairs)
            && s.ops.Keys <= s'.ops.Keys && s'.members.Keys == s.members.Keys && s'.runtimes.Keys == s.runtimes.Keys
            && (forall o :: o in s.ops ==> s'.ops[o].session == s.ops[o].session)
            && (forall m :: m in s.members ==> s'.members[m].gen == s.members[m].gen)
            && (forall m :: m in s.runtimes ==>
                && s'.runtimes[m].gen == s.runtimes[m].gen && s'.runtimes[m].retiring == s.runtimes[m].retiring
                && (s'.runtimes[m].operation.None? || s'.runtimes[m].operation == s.runtimes[m].operation))
  {
  }

  lemma HoldShape(s: State, e: Event)
    requires ByHolding(e) && MayHold(s, e)
    ensures var s' := DoHold(s, e);
            && s' == s.(members := s'.members, runtimes := s'.runtimes, repairs := s'.repairs, orphans := s'.orphans)
            && s'.members.Keys == s.members.Keys && s'.runtimes.Keys <= s.runtimes.Keys
            && (forall m :: m in s.members ==> s'.members[m].gen == s.members[m].gen)
            && (forall m :: m in s'.runtimes ==>
                && s'.runtimes[m].gen == s.runtimes[m].gen && s'.runtimes[m].operation == s.runtimes[m].operation
                && (s.runtimes[m].retiring ==> s'.runtimes[m].retiring))
            && (forall k :: k in s'.orphans ==>
                k in s.orphans || (k.0 in s.runtimes && k.0 !in s'.runtimes && k.1 == s.runtimes[k.0].gen))
  {
  }

  /** Rows and runtimes may go, and rows may change their state. */
  predicate Ending(s: State, s': State) {
    && s' == s.(members := s'.members, runtimes := s'.runtimes, orphans := s'.orphans)
    && s'.members.Keys <= s.members.Keys && s'.runtimes.Keys <= s.runtimes.Keys
    && (forall m :: m in s'.members ==> s'.members[m].gen == s.members[m].gen)
    && (forall m :: m in s'.runtimes ==> s'.runtimes[m] == s.runtimes[m])
  }

  lemma RetiredShape(s: State, e: Event)
    requires (e.Retired? || e.Reconcile?) && MayEnd(s, e)
    ensures Ending(s, DoEnd(s, e))
  {
    if e.Retired? {
      hide Current;
    } else {
      hide Current, SetMember, DropMember;
    }
  }

  /** The retirement of an orphan touches a row of its own generation only. */
  lemma DismissedShape(s: State, e: Event)
    requires e.Dismissed? && MayEnd(s, e)
    ensures var s' := DoEnd(s, e);
            && s' == s.(members := s'.members, orphans := s.orphans - {(e.session, e.gen)})
            && s'.members.Keys <= s.members.Keys
            && (forall m :: m in s'.members ==> s'.members[m].gen == s.members[m].gen)
            && (forall m :: m in s.members && (m != e.session || s.members[m].gen != e.gen) ==>
                  m in s'.members && s'.members[m] == s.members[m])
            && (!Current(s, e.session, e.gen) ==> s'.members.Keys == s.members.Keys)
  {
    hide Current;
  }

  lemma EndShape(s: State, e: Event)
    requires EndsHolding(e) && MayEnd(s, e)
    ensures Ending(s, DoEnd(s, e))
  {
    if e.Dismissed? {
      hide DoEnd, MayEnd;
      DismissedShape(s, e);
    } else {
      hide DoEnd, MayEnd, Ending;
      RetiredShape(s, e);
    }
  }

  lemma ProcessShape(s: State, e: Event)
    requires ByProcess(e) && MayProcess(s, e)
    ensures var s' := DoProcess(s, e);
            && s' == s.(ops := s'.ops, members := s'.members, runtimes := s'.runtimes, repairs := s'.repairs,
                            orphans := s'.orphans, phase := s'.phase)
            && s'.ops.Keys == s.ops.Keys && s'.members.Keys <= s.members.Keys && s'.runtimes.Keys <= s.runtimes.Keys
            && (forall o :: o in s.ops ==>
                s'.ops[o] == s.ops[o] || (Live(s.ops[o].state) && s'.ops[o] == s.ops[o].(state := Uncertain)))
            && (forall m :: m in s'.members ==> s'.members[m].gen == s.members[m].gen)
            && s'.phase == if e.Crash? then Down else Resting
  {
  }

  predicate Enabled(l: Limits, s: State, e: Event) {
    if Picks(e) then MayPick(l, s, e)
    else if Moves(e) then MayMove(s, e)
    else if ByTurns(e) then MayTurn(s, e)
    else if ByHolding(e) then MayHold(s, e)
    else if EndsHolding(e) then MayEnd(s, e)
    else MayProcess(s, e)
  }

  function Do(l: Limits, s: State, e: Event): (s': State)
    requires Enabled(l, s, e)
  {
    if Picks(e) then DoPick(l, s, e)
    else if Moves(e) then DoMove(s, e)
    else if ByTurns(e) then DoTurn(s, e)
    else if ByHolding(e) then DoHold(s, e)
    else if EndsHolding(e) then DoEnd(s, e)
    else DoProcess(s, e)
  }

  function Step(l: Limits, s: State, e: Event): (s': State) {
    if Enabled(l, s, e) then Do(l, s, e) else s
  }

  /** A step is one of the six kinds, or nothing. */
  lemma ByKind(l: Limits, s: State, e: Event)
    ensures !Enabled(l, s, e) ==> Step(l, s, e) == s
    ensures Enabled(l, s, e) ==> Step(l, s, e) == Do(l, s, e)
    ensures ByLoop(e) <==> Picks(e) || Moves(e)
    ensures Picks(e) || Moves(e) || ByTurns(e) || ByHolding(e) || EndsHolding(e) || ByProcess(e)
    ensures Enabled(l, s, e) && Picks(e) ==> MayPick(l, s, e) && Do(l, s, e) == DoPick(l, s, e)
    ensures Enabled(l, s, e) && Moves(e) ==> MayMove(s, e) && Do(l, s, e) == DoMove(s, e)
    ensures Enabled(l, s, e) && ByTurns(e) ==> !ByLoop(e) && MayTurn(s, e) && Do(l, s, e) == DoTurn(s, e)
    ensures Enabled(l, s, e) && ByHolding(e) ==> !ByLoop(e) && MayHold(s, e) && Do(l, s, e) == DoHold(s, e)
    ensures Enabled(l, s, e) && EndsHolding(e) ==> !ByLoop(e) && MayEnd(s, e) && Do(l, s, e) == DoEnd(s, e)
    ensures Enabled(l, s, e) && ByProcess(e) ==> !ByLoop(e) && MayProcess(s, e) && Do(l, s, e) == DoProcess(s, e)
  {
    hide MayPick, MayMove, MayTurn, MayHold, MayEnd, MayProcess, DoPick, DoMove, DoTurn, DoHold, DoEnd, DoProcess;
    hide Picks, Moves, ByTurns, ByHolding, EndsHolding, ByProcess;
    OneKind(e);
  }

  lemma OneKind(e: Event)
    ensures Picks(e) || Moves(e) || ByTurns(e) || ByHolding(e) || EndsHolding(e) || ByProcess(e)
    ensures Picks(e) ==> !Moves(e) && !ByTurns(e) && !ByHolding(e) && !EndsHolding(e) && !ByProcess(e)
    ensures Moves(e) ==> !ByTurns(e) && !ByHolding(e) && !EndsHolding(e) && !ByProcess(e)
    ensures ByTurns(e) ==> !ByHolding(e) && !EndsHolding(e) && !ByProcess(e)
    ensures ByHolding(e) ==> !EndsHolding(e) && !ByProcess(e)
    ensures EndsHolding(e) ==> !ByProcess(e)
  {
  }

  function Run(l: Limits, es: seq<Event>): (s: State)
    decreases |es|
  {
    if es == [] then START else Step(l, Run(l, es[..|es| - 1]), es[|es| - 1])
  }

  lemma RunOneMore(l: Limits, es: seq<Event>, e: Event)
    ensures Run(l, es + [e]) == Step(l, Run(l, es), e)
  {
    assert (es + [e])[..|es|] == es;
  }

  // ----- what every step keeps -------------------------------------------------------------------

  predicate Distinct(ids: seq<Id>) {
    forall i, j :: 0 <= i < j < |ids| ==> ids[i] != ids[j]
  }

  /** Turns still to come in this pass have not been sent. */
  predicate Fresh(s: State, ids: seq<Id>) {
    Distinct(ids) && forall i :: 0 <= i < |ids| ==> ids[i] in s.ops && ids[i] !in s.sent
  }

  predicate PhaseFresh(s: State) {
    match s.phase
    case Down => true
    case Resting => true
    case Picking(todo) => Fresh(s, todo)
    case Admitting(o, rest, _, _) => Fresh(s, [o] + rest)
    case Creating(o, rest, _) => Fresh(s, [o] + rest) && o in s.ops && !s.ops[o].state.Queued?
    case Sending(o, rest, _, _) => Fresh(s, [o] + rest) && o in s.ops && !s.ops[o].state.Queued?
    case Marking(o, rest) => o in s.ops && Fresh(s, rest)
    case Failing(o, rest, _, attempted, reuse) =>
      o in s.ops && Fresh(s, rest) && (o in s.sent && !reuse ==> attempted) && (reuse ==> !attempted)
  }

  predicate SentInv(s: State) {
    && Distinct(s.sent)
    && (forall o :: o in s.sent ==> o in s.ops && !s.ops[o].state.Queued?)
    && PhaseFresh(s)
  }

  lemma FreshHead(s: State, o: Id, rest: seq<Id>)
    requires Fresh(s, [o] + rest)
    ensures o in s.ops && o !in s.sent && Fresh(s, rest) && o !in rest
  {
    var all := [o] + rest;
    assert all[0] == o && forall i :: 0 <= i < |rest| ==> all[i + 1] == rest[i];
  }

  lemma FreshSplits(s: State, todo: seq<Id>)
    requires Fresh(s, todo) && todo != []
    ensures Fresh(s, [todo[0]] + todo[1..]) && Fresh(s, todo[1..])
  {
    assert [todo[0]] + todo[1..] == todo;
    FreshHead(s, todo[0], todo[1..]);
  }

  /** Steps outside the loop leave its plans alone as long as no turn disappears or is sent. */
  lemma FreshStays(s: State, s': State, ids: seq<Id>)
    requires Fresh(s, ids) && s'.sent == s.sent && s.ops.Keys <= s'.ops.Keys
    ensures Fresh(s', ids)
  {
  }

  predicate ByOthers(e: Event) { ByTurns(e) || ByHolding(e) || EndsHolding(e) }

  /** Steps besides the loop, in a living process. */
  lemma OutsideShape(l: Limits, s: State, e: Event)
    requires Enabled(l, s, e) && ByOthers(e)
    ensures var s' := Do(l, s, e);
            && s'.phase == s.phase && s'.sent == s.sent && s.ops.Keys <= s'.ops.Keys
            && forall o :: o in s.ops ==>
                 s'.ops[o].session == s.ops[o].session && (s'.ops[o].state.Queued? ==> s.ops[o].state.Queued?)
  {
    hide Enabled, Do, MayTurn, MayHold, MayEnd, DoTurn, DoHold, DoEnd;
    ByKind(l, s, e);
    if ByTurns(e) { TurnShape(s, e); }
    if ByHolding(e) { HoldShape(s, e); }
    if EndsHolding(e) { EndShape(s, e); }
    if ByTurns(e) { TurnsAreNotQueued(s, e); }
  }

  lemma TurnsAreNotQueued(s: State, e: Event)
    requires ByTurns(e) && MayTurn(s, e)
    ensures forall o :: o in s.ops ==> (DoTurn(s, e).ops[o].state.Queued? ==> s.ops[o].state.Queued?)
  {
    hide SetMember;
  }

  lemma OutsideKeepsSent(l: Limits, s: State, e: Event)
    requires SentInv(s) && Enabled(l, s, e) && ByOthers(e)
    ensures SentInv(Do(l, s, e))
  {
    hide *;
    OutsideShape(l, s, e);
    SentStays(s, Do(l, s, e));
  }

  lemma SentStays(s: State, s': State)
    requires SentInv(s) && s'.phase == s.phase && s'.sent == s.sent && s.ops.Keys <= s'.ops.Keys
    requires forall o :: o in s.ops ==> (s'.ops[o].state.Queued? ==> s.ops[o].state.Queued?)
    ensures SentInv(s')
  {
  }

  lemma ProcessKeepsSent(s: State, e: Event)
    requires SentInv(s) && ByProcess(e) && MayProcess(s, e)
    ensures SentInv(DoProcess(s, e))
  {
    hide DoProcess, MayProcess;
    ProcessShape(s, e);
  }

  lemma SendKeepsSent(s: State, e: Event)
    requires SentInv(s) && e.Send? && MayMove(s, e)
    ensures SentInv(DoMove(s, e))
  {
    hide MaySend;
    FreshHead(s, s.phase.o, s.phase.rest);
  }

  lemma PickKeepsSent(l: Limits, s: State, e: Event)
    requires SentInv(s) && Picks(e) && MayPick(l, s, e)
    ensures SentInv(DoPick(l, s, e))
  {
    hide MayChoose, DropMember;
    if s.phase.Picking? && s.phase.todo != [] { FreshSplits(s, s.phase.todo); }
    if e.Refuse? { FreshStays(s, DoPick(l, s, e), s.phase.todo[1..]); }
  }

  lemma AdmitKeepsSent(s: State, e: Event)
    requires SentInv(s) && e.Admit? && MayMove(s, e)
    ensures SentInv(DoMove(s, e))
  {
    hide Reusable, Fresh;
    var s' := DoMove(s, e);
    FreshHead(s, s.phase.o, s.phase.rest);
    FreshStays(s, s', [s.phase.o] + s.phase.rest);
    FreshStays(s, s', s.phase.rest);
  }

  lemma LoopKeepsSent(s: State, e: Event)
    requires SentInv(s) && (e.Decline? || e.Create? || e.MarkRunning?) && MayMove(s, e)
    ensures SentInv(DoMove(s, e))
  {
    if !e.MarkRunning? { FreshHead(s, s.phase.o, s.phase.rest); }
    hide Distinct;
    FreshStays(s, DoMove(s, e), s.phase.rest);
    hide Fresh;
  }

  lemma ConcludeKeepsSent(s: State, e: Event)
    requires SentInv(s) && e.Conclude? && MayMove(s, e)
    ensures SentInv(DoMove(s, e))
  {
    hide Concluded, Verdict, Distinct;
    if e.saved { FreshStays(s, Concluded(s, e.bare), s.phase.rest); }
  }

  lemma MoveKeepsSent(s: State, e: Event)
    requires SentInv(s) && Moves(e) && MayMove(s, e)
    ensures SentInv(DoMove(s, e))
  {
    hide SentInv, MayMove, DoMove;
    if e.Send? { SendKeepsSent(s, e); }
    else if e.Admit? { AdmitKeepsSent(s, e); }
    else if e.Conclude? { ConcludeKeepsSent(s, e); }
    else { LoopKeepsSent(s, e); }
  }

  lemma StepKeepsSent(l: Limits, s: State, e: Event)
    requires SentInv(s)
    ensures SentInv(Step(l, s, e))
  {
    hide *;
    ByKind(l, s, e);
    OthersByKind(e);
    if Enabled(l, s, e) {
      if Picks(e) { PickKeepsSent(l, s, e); }
      else if Moves(e) { MoveKeepsSent(s, e); }
      else if ByProcess(e) { ProcessKeepsSent(s, e); }
      else { OutsideKeepsSent(l, s, e); }
    }
  }

  lemma OthersByKind(e: Event)
    ensures ByOthers(e) <==> ByTurns(e) || ByHolding(e) || EndsHolding(e)
    ensures ByOthers(e) <==> !ByLoop(e) && !ByProcess(e)
  {
  }

  lemma {:induction false} RunKeepsSent(l: Limits, es: seq<Event>)
    ensures SentInv(Run(l, es))
    decreases |es|
  {
    hide SentInv, Step;
    if es == [] {
      StartIsSentInv();
    } else {
      RunKeepsSent(l, es[..|es| - 1]);
      StepKeepsSent(l, Run(l, es[..|es| - 1]), es[|es| - 1]);
    }
  }

  lemma StartIsSentInv()
    ensures SentInv(START)
  {
  }

  /** Across all crashes and restarts, each turn is sent to its runtime at most once. */
  lemma EachTurnIsSentOnce(l: Limits, es: seq<Event>)
    ensures Distinct(Run(l, es).sent)
  {
    RunKeepsSent(l, es);
  }

  // ----- uncertain turns ------------------------------------------------------------------------------

  predicate IsUncertain(s: State, o: Id) {
    o in s.ops && s.ops[o].state.Uncertain?
  }

  lemma UncertainMove(s: State, e: Event, o: Id)
    requires IsUncertain(s, o) && Moves(e) && MayMove(s, e)
    ensures IsUncertain(DoMove(s, e), o)
  {
    if e.Admit? {
      AdmitLeavesUncertain(s, e.committed, o);
      hide Admitted, Reusable;
    } else {
      hide MaySend, Concluded, Verdict;
    }
  }

  lemma AdmitLeavesUncertain(s: State, committed: bool, o: Id)
    requires s.phase.Admitting? && s.phase.o in s.ops && IsUncertain(s, o)
    ensures IsUncertain(Admitted(s, committed), o)
  {
    hide Reusable;
  }

  lemma UncertainPick(l: Limits, s: State, e: Event, o: Id)
    requires IsUncertain(s, o) && Picks(e) && MayPick(l, s, e)
    ensures IsUncertain(DoPick(l, s, e), o)
  {
    hide MayPick, DoPick;
    PickShape(l, s, e);
  }

  lemma UncertainTurn(s: State, e: Event, o: Id)
    requires IsUncertain(s, o) && ByTurns(e) && MayTurn(s, e)
    ensures IsUncertain(DoTurn(s, e), o)
  {
    hide SetMember;
  }

  lemma UncertainOther(s: State, s': State, o: Id)
    requires IsUncertain(s, o) && s'.ops.Keys == s.ops.Keys
    requires s'.ops[o] == s.ops[o] || !s.ops[o].state.Uncertain?
    ensures IsUncertain(s', o)
  {
  }

  lemma UncertainStep(l: Limits, s: State, e: Event, o: Id)
    requires IsUncertain(s, o)
    ensures IsUncertain(Step(l, s, e), o)
  {
    hide Enabled, Do, Step, MayPick, MayMove, MayTurn, MayHold, MayEnd, MayProcess;
    hide DoPick, DoMove, DoTurn, DoHold, DoEnd, DoProcess, Picks, Moves, ByTurns, ByHolding, EndsHolding, ByProcess;
    ByKind(l, s, e);
    if Enabled(l, s, e) {
      if ByHolding(e) { HoldShape(s, e); }
      if EndsHolding(e) { EndShape(s, e); }
      if ByProcess(e) { ProcessShape(s, e); }
    }
    if Enabled(l, s, e) {
      if Picks(e) { UncertainPick(l, s, e, o); }
      else if Moves(e) { UncertainMove(s, e, o); }
      else if ByTurns(e) { UncertainTurn(s, e, o); }
      else { UncertainOther(s, Do(l, s, e), o); }
    }
  }

  /** A turn once uncertain is never active, finished or queued again. */
  lemma {:induction false} UncertainIsForGood(l: Limits, es: seq<Event>, more: seq<Event>, o: Id)
    requires IsUncertain(Run(l, es), o)
    ensures IsUncertain(Run(l, es + more), o)
    decreases |more|
  {
    hide Step;
    if more == [] {
      assert es + more == es;
    } else {
      var most := more[..|more| - 1];
      UncertainIsForGood(l, es, most, o);
      assert (es + more)[..|es + more| - 1] == es + most;
      UncertainStep(l, Run(l, es + most), more[|more| - 1], o);
    }
  }

  /** The turn is neither queued nor in the hands of the loop. */
  predicate Past(s: State, o: Id) {
    && o in s.ops && !s.ops[o].state.Queued?
    && match s.phase
       case Down => true
       case Resting => true
       case Picking(todo) => o !in todo
       case Admitting(p, rest, _, _) => o != p && o !in rest
       case Creating(p, rest, _) => o != p && o !in rest
       case Sending(p, rest, _, _) => o != p && o !in rest
       case Marking(p, rest) => o !in rest
       case Failing(p, rest, _, _, _) => o !in rest
  }

  lemma PastPick(l: Limits, s: State, e: Event, o: Id)
    requires Past(s, o) && Picks(e) && MayPick(l, s, e)
    ensures Past(DoPick(l, s, e), o) && DoPick(l, s, e).sent == s.sent
  {
    hide MayChoose, DropMember, LiveTurns;
    if e.Tick? { assert forall i :: 0 <= i < |e.found| ==> e.found[i] != o; }
  }

  lemma PastMove(s: State, e: Event, o: Id)
    requires Past(s, o) && Moves(e) && MayMove(s, e)
    ensures Past(DoMove(s, e), o)
    ensures o in DoMove(s, e).sent <==> o in s.sent
  {
    hide Past, DoMove, MayMove;
    if e.Admit? { PastAdmit(s, e, o); }
    else if e.Conclude? { PastConclude(s, e, o); }
    else { PastLate(s, e, o); }
  }

  lemma PastAdmit(s: State, e: Event, o: Id)
    requires Past(s, o) && e.Admit? && MayMove(s, e)
    ensures Past(DoMove(s, e), o)
    ensures o in DoMove(s, e).sent <==> o in s.sent
  {
    hide Admitted, Reusable;
    AdmittedShape(s, e.committed);
  }

  lemma PastConclude(s: State, e: Event, o: Id)
    requires Past(s, o) && e.Conclude? && MayMove(s, e)
    ensures Past(DoMove(s, e), o)
    ensures o in DoMove(s, e).sent <==> o in s.sent
  {
    hide Concluded, Verdict;
  }

  lemma PastLate(s: State, e: Event, o: Id)
    requires Past(s, o) && (e.Decline? || e.Create? || e.Send? || e.MarkRunning?) && MayMove(s, e)
    ensures Past(DoMove(s, e), o)
    ensures o in DoMove(s, e).sent <==> o in s.sent
  {
    hide MaySend;
  }

  lemma PastStep(l: Limits, s: State, e: Event, o: Id)
    requires Past(s, o)
    ensures Past(Step(l, s, e), o)
    ensures o in Step(l, s, e).sent <==> o in s.sent
  {
    hide *;
    ByKind(l, s, e);
    OthersByKind(e);
    if Enabled(l, s, e) {
      if Picks(e) { PastPick(l, s, e, o); }
      else if Moves(e) { PastMove(s, e, o); }
      else if ByProcess(e) { PastProcess(s, e, o); }
      else { PastOutside(l, s, e, o); }
    }
  }

  lemma PastOutside(l: Limits, s: State, e: Event, o: Id)
    requires Past(s, o) && Enabled(l, s, e) && ByOthers(e)
    ensures Past(Do(l, s, e), o) && Do(l, s, e).sent == s.sent
  {
    hide Enabled, Do, ByOthers;
    OutsideShape(l, s, e);
  }

  lemma PastProcess(s: State, e: Event, o: Id)
    requires Past(s, o) && ByProcess(e) && MayProcess(s, e)
    ensures Past(DoProcess(s, e), o) && DoProcess(s, e).sent == s.sent
  {
    hide DoProcess, MayProcess;
    ProcessShape(s, e);
  }

  /** So a restart replays nothing: what was not queued when the new supervisor began is not sent by
      it, whatever else happens. */
  lemma {:induction false} NothingIsReplayed(l: Limits, es: seq<Event>, more: seq<Event>, o: Id)
    requires Past(Run(l, es), o)
    ensures o in Run(l, es + more).sent <==> o in Run(l, es).sent
    ensures Past(Run(l, es + more), o)
    decreases |more|
  {
    hide Step, Past;
    if more == [] {
      assert es + more == es;
    } else {
      var most := more[..|more| - 1];
      NothingIsReplayed(l, es, most, o);
      assert (es + more)[..|es + more| - 1] == es + most;
      PastStep(l, Run(l, es + most), more[|more| - 1], o);
    }
  }

  lemma RestartEndsTurns(s: State, absent: set<Session>, o: Id)
    requires s.phase.Down? && o in s.ops
    ensures o in DoProcess(s, Restart(absent)).ops && !Live(DoProcess(s, Restart(absent)).ops[o].state)
    ensures !s.ops[o].state.Queued? ==> Past(DoProcess(s, Restart(absent)), o)
  {
  }

  lemma RestartLeavesPast(l: Limits, es: seq<Event>, absent: set<Session>, o: Id)
    requires Run(l, es).phase.Down? && o in Run(l, es).ops && !Run(l, es).ops[o].state.Queued?
    ensures Past(Run(l, es + [Restart(absent)]), o)
    ensures o in Run(l, es + [Restart(absent)]).ops && !Live(Run(l, es + [Restart(absent)]).ops[o].state)
  {
    hide Run, Past, Live, DoProcess;
    RunOneMore(l, es, Restart(absent));
    RestartEndsTurns(Run(l, es), absent, o);
  }

  // ----- runtimes and their rows ---------------------------------------------------------------------------

  predicate Backed(s: State, session: Session, gen: nat) {
    session in s.members && s.members[session].gen == gen
  }

  predicate Unheld(s: State, session: Session) {
    session !in s.runtimes && session !in s.members
  }

  predicate MemberInv(s: State) {
    && (forall m :: m in s.runtimes ==> Backed(s, m, s.runtimes[m].gen) && Current(s, m, s.runtimes[m].gen))
    && (s.phase.Down? ==> s.runtimes == map[])
    && (s.phase.Admitting? ==> s.phase.o in s.ops && (s.phase.reuse || Unheld(s, s.ops[s.phase.o].session)))
    && (s.phase.Creating? ==>
          && s.phase.o in s.ops && s.ops[s.phase.o].session !in s.runtimes
          && Backed(s, s.ops[s.phase.o].session, s.phase.gen) && Current(s, s.ops[s.phase.o].session, s.phase.gen))
  }

  /** Generations are drawn once: rows, runtimes, starts under way and orphans have theirs, and no
      orphan shares its generation with a runtime in memory or on its way. */
  predicate GenInv(s: State) {
    && (forall m :: m in s.members ==> s.members[m].gen < s.next)
    && (forall m :: m in s.runtimes ==> s.runtimes[m].gen < s.next && (m, s.runtimes[m].gen) !in s.orphans)
    && (forall k :: k in s.orphans ==> k.1 < s.next)
    && (s.phase.Admitting? || s.phase.Creating? ==>
          && s.phase.gen < s.next && s.phase.o in s.ops
          && ((s.phase.Admitting? && s.phase.reuse) || (s.ops[s.phase.o].session, s.phase.gen) !in s.orphans))
  }

  lemma PickKeepsMembers(l: Limits, s: State, e: Event)
    requires MemberInv(s) && GenInv(s) && Picks(e) && MayPick(l, s, e)
    ensures MemberInv(DoPick(l, s, e)) && GenInv(DoPick(l, s, e)) && s.next <= DoPick(l, s, e).next
  {
    if e.Choose? {
      hide Busy, LiveTurns;
    } else if e.Replace? {
      hide MemberInv, GenInv, DoPick, MayPick;
      ReplaceKeepsMembers(l, s, e);
    } else {
      hide MayChoose, Updated;
    }
  }

  lemma ReplaceKeepsMembers(l: Limits, s: State, e: Event)
    requires MemberInv(s) && GenInv(s) && e.Replace? && MayPick(l, s, e)
    ensures MemberInv(DoPick(l, s, e)) && GenInv(DoPick(l, s, e)) && s.next <= DoPick(l, s, e).next
  {
    hide Busy, LiveTurns;
  }

  lemma AdmitKeepsMembers(s: State, e: Event)
    requires MemberInv(s) && GenInv(s) && e.Admit? && MayMove(s, e)
    ensures MemberInv(DoMove(s, e)) && GenInv(DoMove(s, e))
  {
  }

  lemma CreateKeepsMembers(s: State, e: Event)
    requires MemberInv(s) && GenInv(s) && e.Create? && MayMove(s, e)
    ensures MemberInv(DoMove(s, e)) && GenInv(DoMove(s, e))
  {
  }

  lemma ConcludeKeepsMembers(s: State, e: Event)
    requires MemberInv(s) && GenInv(s) && e.Conclude? && MayMove(s, e)
    ensures MemberInv(DoMove(s, e)) && GenInv(DoMove(s, e))
  {
    hide Updated, Concluded, Verdict;
    RowsAreKept(s, e.bare);
  }

  /** The catch does not touch the row of a runtime in memory. */
  lemma RowsAreKept(s: State, bare: bool)
    requires s.phase.Failing? && s.phase.o in s.ops
    ensures forall m :: m in s.runtimes && m in s.members ==>
              m in Concluded(s, bare).members && Concluded(s, bare).members[m] == s.members[m]
  {
    hide Concluded, Updated, Verdict;
  }

  lemma LoopKeepsMembers(s: State, e: Event)
    requires MemberInv(s) && GenInv(s) && (e.Decline? || e.Send? || e.MarkRunning?) && MayMove(s, e)
    ensures MemberInv(DoMove(s, e)) && GenInv(DoMove(s, e))
  {
    hide MaySend;
  }

  lemma MoveKeepsMembers(s: State, e: Event)
    requires MemberInv(s) && GenInv(s) && Moves(e) && MayMove(s, e)
    ensures MemberInv(DoMove(s, e)) && GenInv(DoMove(s, e)) && s.next == DoMove(s, e).next
  {
    hide MemberInv, GenInv, DoMove, MayMove;
    MoveShape(s, e);
    if e.Admit? { AdmitKeepsMembers(s, e); }
    else if e.Create? { CreateKeepsMembers(s, e); }
    else if e.Conclude? { ConcludeKeepsMembers(s, e); }
    else { LoopKeepsMembers(s, e); }
  }

  /** Rows, runtimes and turns are those of before, as far as identity goes; only runtimes that left
      memory are new orphans. */
  predicate SameHolders(s: State, s': State) {
    && s'.phase == s.phase && s'.gens == s.gens
    && (forall o :: o in s.ops ==> o in s'.ops && s'.ops[o].session == s.ops[o].session)
    && s'.members.Keys == s.members.Keys && (forall m :: m in s.members ==> s'.members[m].gen == s.members[m].gen)
    && s'.runtimes.Keys <= s.runtimes.Keys && (forall m :: m in s'.runtimes ==> s'.runtimes[m].gen == s.runtimes[m].gen)
    && (forall k :: k in s'.orphans ==>
          k in s.orphans || (k.0 in s.runtimes && k.0 !in s'.runtimes && k.1 == s.runtimes[k.0].gen))
  }

  lemma SameHoldersKeep(s: State, s': State)
    requires MemberInv(s) && GenInv(s) && SameHolders(s, s') && s'.next == s.next
    ensures MemberInv(s') && GenInv(s')
  {
  }

  lemma OutsideHolders(l: Limits, s: State, e: Event)
    requires Enabled(l, s, e) && (ByTurns(e) || ByHolding(e))
    ensures SameHolders(s, Do(l, s, e)) && Do(l, s, e).next == s.next
  {
    hide Enabled, Do, MayTurn, DoTurn, MayHold, DoHold;
    ByKind(l, s, e);
    if ByTurns(e) { TurnShape(s, e); } else { HoldShape(s, e); }
  }

  lemma OutsideKeepsMembers(l: Limits, s: State, e: Event)
    requires MemberInv(s) && GenInv(s) && Enabled(l, s, e) && (ByTurns(e) || ByHolding(e))
    ensures MemberInv(Do(l, s, e)) && GenInv(Do(l, s, e)) && s.next == Do(l, s, e).next
  {
    hide *;
    OutsideHolders(l, s, e);
    SameHoldersKeep(s, Do(l, s, e));
  }

  lemma ProcessKeepsMembers(s: State, e: Event)
    requires MemberInv(s) && GenInv(s) && ByProcess(e) && MayProcess(s, e)
    ensures MemberInv(DoProcess(s, e)) && GenInv(DoProcess(s, e)) && s.next == DoProcess(s, e).next
  {
    hide Live, Current;
    var s' := DoProcess(s, e);
    if e.Restart? {
      assert forall m :: m in s'.members ==> m in s.members && s'.members[m].gen == s.members[m].gen;
    }
  }

  lemma EndingKeepsMembers(s: State, e: Event)
    requires MemberInv(s) && GenInv(s) && (e.Retired? || e.Reconcile?) && MayEnd(s, e)
    ensures MemberInv(DoEnd(s, e)) && GenInv(DoEnd(s, e)) && s.next <= DoEnd(s, e).next
  {
  }

  lemma DismissalKeepsMembers(s: State, e: Event)
    requires MemberInv(s) && GenInv(s) && e.Dismissed? && MayEnd(s, e)
    ensures MemberInv(DoEnd(s, e)) && GenInv(DoEnd(s, e)) && s.next <= DoEnd(s, e).next
  {
    hide DoEnd, MayEnd;
    DismissedShape(s, e);
    DismissedIsOrphan(s, e);
  }

  lemma DismissedIsOrphan(s: State, e: Event)
    requires e.Dismissed? && MayEnd(s, e)
    ensures (e.session, e.gen) in s.orphans
  {
  }

  lemma EndKeepsMembers(s: State, e: Event)
    requires MemberInv(s) && GenInv(s) && EndsHolding(e) && MayEnd(s, e)
    ensures MemberInv(DoEnd(s, e)) && GenInv(DoEnd(s, e)) && s.next <= DoEnd(s, e).next
  {
    hide MemberInv, GenInv, DoEnd, MayEnd;
    if e.Dismissed? { DismissalKeepsMembers(s, e); }
    else { EndingKeepsMembers(s, e); }
  }

  lemma StepKeepsHolders(l: Limits, s: State, e: Event)
    requires MemberInv(s) && GenInv(s)
    ensures MemberInv(Step(l, s, e)) && GenInv(Step(l, s, e)) && s.next <= Step(l, s, e).next
  {
    hide *;
    ByKind(l, s, e);
    if Enabled(l, s, e) {
      if Picks(e) { PickKeepsMembers(l, s, e); }
      else if Moves(e) { MoveKeepsMembers(s, e); }
      else if EndsHolding(e) { EndKeepsMembers(s, e); }
      else if ByTurns(e) || ByHolding(e) { OutsideKeepsMembers(l, s, e); }
      else { ProcessKeepsMembers(s, e); }
    }
  }

  lemma {:induction false} RunKeepsHolders(l: Limits, es: seq<Event>)
    ensures MemberInv(Run(l, es)) && GenInv(Run(l, es))
    decreases |es|
  {
    hide MemberInv, GenInv, Step;
    if es == [] {
      StartHasNoMembers();
    } else {
      RunKeepsHolders(l, es[..|es| - 1]);
      StepKeepsHolders(l, Run(l, es[..|es| - 1]), es[|es| - 1]);
    }
  }

  lemma RunKeepsMembers(l: Limits, es: seq<Event>)
    ensures MemberInv(Run(l, es))
  {
    hide *;
    RunKeepsHolders(l, es);
  }

  lemma StartHasNoMembers()
    ensures MemberInv(START) && GenInv(START)
  {
  }

  /** Every runtime in memory has its row, of its own generation, and that is the conversation's. */
  lemma RuntimesHaveRows(l: Limits, es: seq<Event>, session: Session)
    requires session in Run(l, es).runtimes
    ensures var s := Run(l, es);
            && session in s.members && s.members[session].gen == s.runtimes[session].gen
            && session in s.gens && s.gens[session] == s.runtimes[session].gen
  {
    RunKeepsMembers(l, es);
  }

  // ----- limits ------------------------------------------------------------------------------------------

  predicate OnePerSession(ops: map<Id, Turn>) {
    forall o, p :: o in ops && p in ops && o != p && Live(ops[o].state) && Live(ops[p].state) ==>
      ops[o].session != ops[p].session
  }

  predicate LimitInv(l: Limits, s: State) {
    && |LiveTurns(s.ops)| <= l.turns && OnePerSession(s.ops)
    && |s.members| <= l.runtimes
    && (s.phase.Admitting? && s.phase.o in s.ops ==>
          && |LiveTurns(s.ops)| < l.turns && !Busy(s, s.ops[s.phase.o].session)
          && (!s.phase.reuse ==> |s.members| < l.runtimes))
  }

  /** No turn becomes live, and every turn keeps its session. */
  predicate Calmer(a: map<Id, Turn>, b: map<Id, Turn>) {
    && (forall o :: o in a ==> o in b && b[o].session == a[o].session)
    && (forall o :: o in b && Live(b[o].state) ==> o in a && Live(a[o].state))
  }

  lemma CalmerKeeps(a: map<Id, Turn>, b: map<Id, Turn>)
    requires Calmer(a, b)
    ensures |LiveTurns(b)| <= |LiveTurns(a)|
    ensures OnePerSession(a) ==> OnePerSession(b)
  {
    SubsetIsSmaller(LiveTurns(b), LiveTurns(a));
  }

  /** What a step other than an admission does to the turns. */
  predicate CalmStep(s: State, s': State, e: Event) {
    && Calmer(s.ops, s'.ops) && s'.members.Keys <= s.members.Keys
    && (s'.phase.Admitting? ==> e.Choose? || e.Replace? || s'.phase == s.phase)
  }

  lemma PickIsCalm(l: Limits, s: State, e: Event)
    requires Picks(e) && MayPick(l, s, e)
    ensures CalmStep(s, DoPick(l, s, e), e)
  {
    hide MayChoose;
  }

  lemma MoveIsCalm(s: State, e: Event)
    requires Moves(e) && MayMove(s, e) && !e.Admit?
    ensures CalmStep(s, DoMove(s, e), e)
  {
    hide CalmStep, DoMove, MayMove;
    if e.Conclude? { ConcludeIsCalm(s, e); } else { LateIsCalm(s, e); }
  }

  lemma ConcludeIsCalm(s: State, e: Event)
    requires e.Conclude? && MayMove(s, e)
    ensures CalmStep(s, DoMove(s, e), e)
  {
    hide Concluded, Verdict;
  }

  lemma LateIsCalm(s: State, e: Event)
    requires (e.Decline? || e.Create? || e.Send? || e.MarkRunning?) && MayMove(s, e)
    ensures CalmStep(s, DoMove(s, e), e)
  {
    hide MaySend;
  }

  lemma LoopIsCalm(l: Limits, s: State, e: Event)
    requires Enabled(l, s, e) && ByLoop(e) && !e.Admit?
    ensures CalmStep(s, Do(l, s, e), e)
  {
    hide *;
    ByKind(l, s, e);
    if Picks(e) { PickIsCalm(l, s, e); } else { MoveIsCalm(s, e); }
  }

  lemma TurnsAreCalm(s: State, e: Event)
    requires ByTurns(e) && MayTurn(s, e)
    ensures CalmStep(s, DoTurn(s, e), e)
  {
    TurnMembersStay(s, e);
    if e.Complete? || e.Ask? {
      hide SetMember, Updated;
    } else {
      hide SetMember;
    }
  }

  lemma TurnMembersStay(s: State, e: Event)
    requires ByTurns(e) && MayTurn(s, e)
    ensures DoTurn(s, e).members.Keys == s.members.Keys && DoTurn(s, e).phase == s.phase
  {
    hide Updated, Live, Final;
  }

  lemma HoldsAreCalm(s: State, e: Event)
    requires ByHolding(e) && MayHold(s, e)
    ensures CalmStep(s, DoHold(s, e), e)
  {
    hide MayHold, DoHold;
    HoldShape(s, e);
  }

  lemma EndsAreCalm(s: State, e: Event)
    requires EndsHolding(e) && MayEnd(s, e)
    ensures CalmStep(s, DoEnd(s, e), e)
  {
    hide MayEnd, DoEnd;
    EndShape(s, e);
  }

  lemma ProcessIsCalm(s: State, e: Event)
    requires ByProcess(e) && MayProcess(s, e)
    ensures CalmStep(s, DoProcess(s, e), e)
  {
    hide MayProcess, DoProcess;
    ProcessShape(s, e);
  }

  lemma OutsideIsCalm(l: Limits, s: State, e: Event)
    requires Enabled(l, s, e) && !ByLoop(e)
    ensures CalmStep(s, Do(l, s, e), e)
  {
    hide *;
    ByKind(l, s, e);
    if ByTurns(e) { TurnsAreCalm(s, e); }
    else if ByHolding(e) { HoldsAreCalm(s, e); }
    else if EndsHolding(e) { EndsAreCalm(s, e); }
    else { ProcessIsCalm(s, e); }
  }

  lemma FewerKeys(a: map<Session, Member>, b: map<Session, Member>)
    requires b.Keys <= a.Keys
    ensures |b| <= |a|
  {
    SubsetIsSmaller(b.Keys, a.Keys);
    assert |a| == |a.Keys| && |b| == |b.Keys|;
  }

  lemma QuietKeepsLimits(l: Limits, s: State, e: Event)
    requires LimitInv(l, s) && SentInv(s) && MemberInv(s) && Enabled(l, s, e) && !e.Admit?
    ensures LimitInv(l, Do(l, s, e))
  {
    hide SentInv, MemberInv, Do, Enabled, Calmer, Busy, LiveTurns, OnePerSession;
    var s' := Do(l, s, e);
    if ByLoop(e) { LoopIsCalm(l, s, e); } else { OutsideIsCalm(l, s, e); }
    CalmerKeeps(s.ops, s'.ops);
    FewerKeys(s.members, s'.members);
    if s'.phase.Admitting? && s'.phase.o in s'.ops {
      if e.Choose? {
        ChoosingIsFree(l, s);
      } else if e.Replace? {
        ReplacingIsFree(l, s);
      } else {
        AdmittedHead(s);
        StillFree(s, s', s.phase.o);
      }
    }
  }

  lemma AdmittedHead(s: State)
    requires SentInv(s) && s.phase.Admitting?
    ensures s.phase.o in s.ops
  {
    FreshHead(s, s.phase.o, s.phase.rest);
  }

  lemma ReplacingIsFree(l: Limits, s: State)
    requires Enabled(l, s, Replace) && MemberInv(s) && |s.members| <= l.runtimes
    ensures var s' := Do(l, s, Replace);
            && s'.ops == s.ops && s'.phase.o in s.ops && !s'.phase.reuse
            && |LiveTurns(s.ops)| < l.turns && !Busy(s', s.ops[s'.phase.o].session) && |s'.members| < l.runtimes
  {
    hide LiveTurns;
    var s', session := Do(l, s, Replace), s.ops[s.phase.todo[0]].session;
    assert session in s.runtimes && Backed(s, session, s.runtimes[session].gen);
    assert s.members.Keys == s'.members.Keys + {session} && session !in s'.members.Keys;
    assert |s.members| == |s.members.Keys| && |s'.members| == |s'.members.Keys|;
    assert Busy(s', session) ==> Busy(s, session);
  }

  lemma ChoosingIsFree(l: Limits, s: State)
    requires Enabled(l, s, Choose)
    ensures var s' := Do(l, s, Choose);
            && s'.ops == s.ops && s'.members == s.members && s'.phase.o in s.ops
            && |LiveTurns(s.ops)| < l.turns && !Busy(s', s.ops[s'.phase.o].session)
            && (!s'.phase.reuse ==> |s.members| < l.runtimes)
  {
  }

  lemma StillFree(s: State, s': State, o: Id)
    requires Calmer(s.ops, s'.ops) && o in s.ops && !Busy(s, s.ops[o].session)
    ensures o in s'.ops && !Busy(s', s'.ops[o].session)
  {
  }

  lemma AdmitKeepsTurns(l: Limits, s: State, e: Event)
    requires LimitInv(l, s) && Enabled(l, s, e) && e.Admit?
    ensures |LiveTurns(Do(l, s, e).ops)| <= l.turns && OnePerSession(Do(l, s, e).ops)
  {
    hide Reusable;
    var s', o := Do(l, s, e), s.phase.o;
    assert forall p :: p in s'.ops && p != o ==> p in s.ops && s'.ops[p] == s.ops[p];
    assert s'.ops[o].session == s.ops[o].session;
    AtMostOneMore(s.ops, s'.ops, o);
    forall p | p in s.ops && p != o && Live(s.ops[p].state)
      ensures s.ops[p].session != s.ops[o].session
    {
      assert !Busy(s, s.ops[o].session);
    }
  }

  lemma AtMostOneMore(a: map<Id, Turn>, b: map<Id, Turn>, o: Id)
    requires forall p :: p in b && p != o ==> p in a && b[p] == a[p]
    ensures |LiveTurns(b)| <= |LiveTurns(a)| + 1
  {
    SubsetIsSmaller(LiveTurns(b), LiveTurns(a) + {o});
  }

  lemma AdmittedRows(s: State, committed: bool)
    requires s.phase.Admitting? && s.phase.o in s.ops
    ensures var session := s.ops[s.phase.o].session;
            Admitted(s, committed).members.Keys == if committed then s.members.Keys + {session} else s.members.Keys
  {
    hide Reusable;
  }

  lemma AdmitKeepsRuntimes(l: Limits, s: State, e: Event)
    requires LimitInv(l, s) && Enabled(l, s, e) && e.Admit?
    ensures |Do(l, s, e).members| <= l.runtimes && !Do(l, s, e).phase.Admitting?
  {
    hide LiveTurns, OnePerSession, Busy, Admitted;
    var s', session := Do(l, s, e), s.ops[s.phase.o].session;
    AdmittedRows(s, e.committed);
    assert |s'.members| == |s'.members.Keys| && |s.members| == |s.members.Keys|;
    if s.phase.reuse && e.committed { assert s.members.Keys + {session} == s.members.Keys; }
  }

  lemma AdmitKeepsLimits(l: Limits, s: State, e: Event)
    requires LimitInv(l, s) && Enabled(l, s, e) && e.Admit?
    ensures LimitInv(l, Do(l, s, e))
  {
    hide Do, LiveTurns, OnePerSession, Enabled;
    AdmitKeepsTurns(l, s, e);
    AdmitKeepsRuntimes(l, s, e);
  }

  lemma {:induction false} RunKeepsLimits(l: Limits, es: seq<Event>)
    ensures LimitInv(l, Run(l, es))
    decreases |es|
  {
    hide LimitInv, SentInv, MemberInv, Enabled;
    if es == [] {
      StartIsWithin(l);
    } else {
      var s, e := Run(l, es[..|es| - 1]), es[|es| - 1];
      RunKeepsLimits(l, es[..|es| - 1]);
      RunKeepsSent(l, es[..|es| - 1]);
      RunKeepsMembers(l, es[..|es| - 1]);
      if Enabled(l, s, e) {
        if e.Admit? { AdmitKeepsLimits(l, s, e); } else { QuietKeepsLimits(l, s, e); }
      }
    }
  }

  lemma StartIsWithin(l: Limits)
    ensures LimitInv(l, START)
  {
  }

  /** At all times: active turns within their limit, one at most in each conversation, and runtimes
      within theirs. */
  lemma LimitsHold(l: Limits, es: seq<Event>)
    ensures |LiveTurns(Run(l, es).ops)| <= l.turns && OnePerSession(Run(l, es).ops)
    ensures |Run(l, es).members| <= l.runtimes
  {
    RunKeepsLimits(l, es);
  }

  // ----- eviction ------------------------------------------------------------------------------------------

  predicate StillRetiring(s: State, s': State, session: Session)
    requires session in s.runtimes
  {
    session in s'.runtimes ==>
      && s'.runtimes[session].retiring && s'.runtimes[session].gen == s.runtimes[session].gen
      && (s'.runtimes[session].operation.None? || s'.runtimes[session].operation == s.runtimes[session].operation)
  }

  lemma RetiringPick(l: Limits, s: State, e: Event, session: Session)
    requires session in s.runtimes && Picks(e) && MayPick(l, s, e)
    ensures s.runtimes[session].retiring ==> StillRetiring(s, DoPick(l, s, e), session)
    ensures DoPick(l, s, e).sent == s.sent
  {
    hide MayPick, DoPick;
    PickShape(l, s, e);
  }

  lemma RetiringMove(s: State, e: Event, session: Session)
    requires MemberInv(s) && session in s.runtimes && s.runtimes[session].retiring && Moves(e) && MayMove(s, e)
    ensures StillRetiring(s, DoMove(s, e), session)
    ensures s.phase.Sending? && s.phase.o in s.ops && s.ops[s.phase.o].session == session ==>
              DoMove(s, e).sent == s.sent
  {
    if e.Conclude? {
      hide Concluded, Verdict;
    } else if e.Admit? {
      AdmitSparesRetiring(s, e.committed, session);
      hide Admitted, Reusable;
    }
  }

  lemma AdmitSparesRetiring(s: State, committed: bool, session: Session)
    requires s.phase.Admitting? && s.phase.o in s.ops && session in s.runtimes && s.runtimes[session].retiring
    ensures session in Admitted(s, committed).runtimes
    ensures Admitted(s, committed).runtimes[session] == s.runtimes[session]
  {
  }

  lemma RetiringLoop(l: Limits, s: State, e: Event, session: Session)
    requires MemberInv(s) && session in s.runtimes && s.runtimes[session].retiring
    requires Enabled(l, s, e) && ByLoop(e)
    ensures StillRetiring(s, Do(l, s, e), session)
    ensures s.phase.Sending? && s.phase.o in s.ops && s.ops[s.phase.o].session == session ==> Do(l, s, e).sent == s.sent
  {
    hide *;
    ByKind(l, s, e);
    if Picks(e) { RetiringPick(l, s, e, session); } else { RetiringMove(s, e, session); }
  }

  lemma RetiringOutside(l: Limits, s: State, e: Event, session: Session)
    requires session in s.runtimes && s.runtimes[session].retiring
    requires Enabled(l, s, e) && !ByLoop(e)
    ensures StillRetiring(s, Do(l, s, e), session) && Do(l, s, e).sent == s.sent
  {
    ByKind(l, s, e);
    if ByTurns(e) { TurnShape(s, e); }
    if ByHolding(e) { HoldShape(s, e); }
    if EndsHolding(e) { EndShape(s, e); }
    if ByProcess(e) { ProcessForgets(s, e); }
    hide Enabled, Do, ByLoop, MayTurn, MayHold, MayEnd, MayProcess, DoTurn, DoHold, DoEnd, DoProcess;
  }

  lemma ProcessForgets(s: State, e: Event)
    requires ByProcess(e) && MayProcess(s, e)
    ensures DoProcess(s, e).runtimes == if e.Crash? then map[] else s.runtimes
  {
  }

  lemma ProcessHasForgotten(s: State, e: Event)
    requires MemberInv(s) && ByProcess(e) && MayProcess(s, e)
    ensures DoProcess(s, e).runtimes == map[]
  {
  }

  lemma SendsTheCurrent(l: Limits, s: State, e: Event)
    ensures Step(l, s, e).sent != s.sent ==>
              s.phase.Sending? && s.phase.o in s.ops && Step(l, s, e).sent == s.sent + [s.phase.o]
  {
    hide Enabled, Do, Step, MayPick, MayMove, MayTurn, MayHold, MayEnd, MayProcess;
    hide DoPick, DoMove, DoTurn, DoHold, DoEnd, DoProcess, Picks, Moves, ByTurns, ByHolding, EndsHolding, ByProcess;
    ByKind(l, s, e);
    if Enabled(l, s, e) {
      if Picks(e) { PickShape(l, s, e); }
      if ByTurns(e) { TurnShape(s, e); }
      if ByHolding(e) { HoldShape(s, e); }
      if EndsHolding(e) { EndShape(s, e); }
      if ByProcess(e) { ProcessShape(s, e); }
    }
    if Enabled(l, s, e) && Moves(e) { MoveSendsTheCurrent(s, e); }
  }

  lemma MoveSendsTheCurrent(s: State, e: Event)
    requires Moves(e) && MayMove(s, e)
    ensures DoMove(s, e).sent != s.sent ==>
              s.phase.Sending? && s.phase.o in s.ops && DoMove(s, e).sent == s.sent + [s.phase.o]
  {
    hide Concluded, Reusable;
  }

  /** The runtime of that generation is in memory. */
  predicate InMemory(s: State, session: Session, gen: nat) {
    session in s.runtimes && s.runtimes[session].gen == gen
  }

  /** Nothing under way can bring that generation back. */
  predicate NotComing(s: State, session: Session, gen: nat) {
    && gen < s.next
    && ((s.phase.Admitting? && !s.phase.reuse) || s.phase.Creating? ==>
          s.phase.o in s.ops && (s.ops[s.phase.o].session == session ==> s.phase.gen != gen))
  }

  /** The runtime is on its way out, its row with it, and since `before` no turn of its conversation
      became active or was sent. */
  predicate Leaves(before: State, s: State, session: Session, gen: nat) {
    && session in s.runtimes && s.runtimes[session] == Runtime(gen, None, true)
    && session in s.members && s.members[session] == Member(gen, Leaving)
    && (forall o :: o in s.ops && s.ops[o].session == session && Live(s.ops[o].state) ==>
          o in before.ops && Live(before.ops[o].state))
    && (forall o :: o in s.sent && o in s.ops && s.ops[o].session == session ==> o in before.sent)
  }

  lemma NotComingPick(l: Limits, s: State, e: Event, session: Session, gen: nat)
    requires NotComing(s, session, gen) && Picks(e) && MayPick(l, s, e)
    ensures NotComing(DoPick(l, s, e), session, gen)
    ensures InMemory(DoPick(l, s, e), session, gen) ==> InMemory(s, session, gen)
  {
    hide LiveTurns, Busy, Updated, DropMember;
  }

  lemma NotComingMove(s: State, e: Event, session: Session, gen: nat)
    requires NotComing(s, session, gen) && Moves(e) && MayMove(s, e)
    ensures NotComing(DoMove(s, e), session, gen)
    ensures InMemory(DoMove(s, e), session, gen) ==> InMemory(s, session, gen)
  {
    hide MaySend, Concluded, Verdict;
  }

  lemma NotComingOutside(l: Limits, s: State, e: Event, session: Session, gen: nat)
    requires NotComing(s, session, gen) && Enabled(l, s, e) && ByOthers(e)
    ensures NotComing(Do(l, s, e), session, gen)
    ensures InMemory(Do(l, s, e), session, gen) ==> InMemory(s, session, gen)
  {
    hide Enabled, Do, MayTurn, MayHold, MayEnd, DoTurn, DoHold, DoEnd;
    ByKind(l, s, e);
    if ByTurns(e) { TurnShape(s, e); }
    if ByHolding(e) { HoldShape(s, e); }
    if EndsHolding(e) { EndShape(s, e); }
  }

  lemma NotComingProcess(s: State, e: Event, session: Session, gen: nat)
    requires NotComing(s, session, gen) && ByProcess(e) && MayProcess(s, e)
    ensures NotComing(DoProcess(s, e), session, gen)
    ensures InMemory(DoProcess(s, e), session, gen) ==> InMemory(s, session, gen)
  {
    ProcessForgets(s, e);
    hide DoProcess, MayProcess;
  }

  lemma NotComingStep(l: Limits, s: State, e: Event, session: Session, gen: nat)
    requires NotComing(s, session, gen) && Enabled(l, s, e)
    ensures NotComing(Do(l, s, e), session, gen)
    ensures InMemory(Do(l, s, e), session, gen) ==> InMemory(s, session, gen)
  {
    hide *;
    ByKind(l, s, e);
    OthersByKind(e);
    if Picks(e) { NotComingPick(l, s, e, session, gen); }
    else if Moves(e) { NotComingMove(s, e, session, gen); }
    else if ByProcess(e) { NotComingProcess(s, e, session, gen); }
    else { NotComingOutside(l, s, e, session, gen); }
  }

  lemma LeavesLoop(l: Limits, before: State, s: State, e: Event, session: Session, gen: nat)
    requires MemberInv(s) && SentInv(s) && Leaves(before, s, session, gen) && Enabled(l, s, e) && ByLoop(e)
    requires InMemory(Do(l, s, e), session, gen)
    ensures Leaves(before, Do(l, s, e), session, gen)
  {
    hide *;
    ByKind(l, s, e);
    if Picks(e) { LeavesPick(l, before, s, e, session, gen); }
    else { LeavesMove(before, s, e, session, gen); }
  }

  lemma LeavesMove(before: State, s: State, e: Event, session: Session, gen: nat)
    requires MemberInv(s) && SentInv(s) && Leaves(before, s, session, gen) && Moves(e) && MayMove(s, e)
    ensures Leaves(before, DoMove(s, e), session, gen)
  {
    hide MemberInv, SentInv, Leaves, MayMove, DoMove;
    if e.Admit? { LeavesAdmit(before, s, e, session, gen); }
    else if e.Send? { LeavesSend(before, s, e, session, gen); }
    else if e.Conclude? { LeavesConclude(before, s, e, session, gen); }
    else { LeavesLate(before, s, e, session, gen); }
  }

  /** Since `before` the runtime took no other turn and its conversation was sent nothing. */
  predicate Spared(before: State, s: State, session: Session)
    requires session in before.runtimes
  {
    && StillRetiring(before, s, session) && before.runtimes[session].retiring
    && forall o :: o in s.sent && o !in before.sent ==> o in s.ops && s.ops[o].session != session
  }

  lemma SparedStep(l: Limits, before: State, s: State, e: Event, session: Session)
    requires MemberInv(s) && SentInv(s) && session in before.runtimes && session in s.runtimes
    requires Spared(before, s, session)
    requires Enabled(l, s, e) && InMemory(Do(l, s, e), session, s.runtimes[session].gen)
    ensures Spared(before, Do(l, s, e), session)
  {
    hide Enabled, Do, MemberInv, SentInv, ByLoop;
    if ByLoop(e) { RetiringLoop(l, s, e, session); } else { RetiringOutside(l, s, e, session); }
    SendsTheCurrent(l, s, e);
    SessionsStay(l, s, e);
  }

  lemma SessionsStay(l: Limits, s: State, e: Event)
    requires Enabled(l, s, e) && SentInv(s)
    ensures forall o :: o in s.ops ==> o in Do(l, s, e).ops && Do(l, s, e).ops[o].session == s.ops[o].session
    ensures forall o :: o in s.sent ==> o in s.ops
  {
    hide *;
    SentAreKnown(s);
    ByKind(l, s, e);
    OthersByKind(e);
    if Picks(e) { PickShape(l, s, e); }
    else if Moves(e) { MoveShape(s, e); }
    else if ByProcess(e) { ProcessShape(s, e); }
    else { OutsideShape(l, s, e); }
  }

  /** A runtime that is being retired takes no further turn and is sent nothing, whatever happens, for
      as long as it is in memory; and once gone its generation does not come back. */
  lemma {:induction false} RetiringTakesNoTurn(l: Limits, es: seq<Event>, session: Session, more: seq<Event>)
    requires session in Run(l, es).runtimes && Run(l, es).runtimes[session].retiring
    ensures var s, s' := Run(l, es), Run(l, es + more);
            && NotComing(s', session, s.runtimes[session].gen)
            && (InMemory(s', session, s.runtimes[session].gen) ==> Spared(s, s', session))
    decreases |more|
  {
    var s := Run(l, es);
    if more == [] {
      assert es + more == es;
      RunKeepsHolders(l, es);
      hide Run;
      InMemoryIsNotComing(s, session);
      SparedAtOnce(s, session);
    } else {
      var most, e := more[..|more| - 1], more[|more| - 1];
      RetiringTakesNoTurn(l, es, session, most);
      assert es + more == es + most + [e];
      RunOneMore(l, es + most, e);
      RunKeepsMembers(l, es + most);
      RunKeepsSent(l, es + most);
      hide *;
      RetiringStep(l, s, Run(l, es + most), e, session);
    }
  }

  lemma RetiringStep(l: Limits, before: State, s: State, e: Event, session: Session)
    requires MemberInv(s) && SentInv(s) && session in before.runtimes
    requires NotComing(s, session, before.runtimes[session].gen)
    requires InMemory(s, session, before.runtimes[session].gen) ==> Spared(before, s, session)
    ensures NotComing(Step(l, s, e), session, before.runtimes[session].gen)
    ensures InMemory(Step(l, s, e), session, before.runtimes[session].gen) ==> Spared(before, Step(l, s, e), session)
  {
    hide Enabled, Do, MemberInv, SentInv, Spared, NotComing;
    if Enabled(l, s, e) {
      NotComingStep(l, s, e, session, before.runtimes[session].gen);
      if InMemory(Do(l, s, e), session, before.runtimes[session].gen) { SparedStep(l, before, s, e, session); }
    }
  }

  lemma SparedAtOnce(s: State, session: Session)
    requires session in s.runtimes && s.runtimes[session].retiring
    ensures Spared(s, s, session)
  {
  }

  lemma InMemoryIsNotComing(s: State, session: Session)
    requires MemberInv(s) && GenInv(s) && session in s.runtimes
    ensures NotComing(s, session, s.runtimes[session].gen)
  {
  }

  lemma LeavingRowPicked(l: Limits, s: State, e: Event, session: Session, gen: nat)
    requires MemberInv(s) && Picks(e) && MayPick(l, s, e) && InMemory(DoPick(l, s, e), session, gen)
    requires session in s.runtimes && session in s.members
    ensures session in DoPick(l, s, e).runtimes && session in DoPick(l, s, e).members
  {
    if e.Replace? {
      hide LiveTurns, Busy;
    } else {
      hide MayChoose, Updated, DropMember;
    }
  }

  lemma LeavesPick(l: Limits, before: State, s: State, e: Event, session: Session, gen: nat)
    requires MemberInv(s) && SentInv(s) && Leaves(before, s, session, gen) && Picks(e) && MayPick(l, s, e)
    requires InMemory(DoPick(l, s, e), session, gen)
    ensures Leaves(before, DoPick(l, s, e), session, gen)
  {
    PickIsCalm(l, s, e);
    LeavingRowPicked(l, s, e, session, gen);
    SentAreKnown(s);
    LeavingShape(before, s, session, gen);
    PickShape(l, s, e);
    hide *;
    LeavesOn(before, s, DoPick(l, s, e), e, session, gen);
  }

  lemma LeavingShape(before: State, s: State, session: Session, gen: nat)
    requires Leaves(before, s, session, gen)
    ensures session in s.runtimes && s.runtimes[session] == Runtime(gen, None, true)
    ensures session in s.members && s.members[session] == Member(gen, Leaving)
  {
  }

  lemma SentAreKnown(s: State)
    requires SentInv(s)
    ensures forall o :: o in s.sent ==> o in s.ops
  {
  }

  lemma LeavesOn(before: State, s: State, s': State, e: Event, session: Session, gen: nat)
    requires Leaves(before, s, session, gen) && CalmStep(s, s', e)
    requires s'.sent == s.sent && forall o :: o in s.sent ==> o in s.ops
    requires session in s'.runtimes && s'.runtimes[session] == Runtime(gen, None, true)
    requires session in s'.members && s'.members[session] == Member(gen, Leaving)
    ensures Leaves(before, s', session, gen)
  {
    hide Live;
  }

  lemma LeavesLate(before: State, s: State, e: Event, session: Session, gen: nat)
    requires MemberInv(s) && Leaves(before, s, session, gen) && (e.MarkRunning? || e.Decline? || e.Create?)
    requires MayMove(s, e)
    ensures Leaves(before, DoMove(s, e), session, gen)
  {
  }

  lemma LeavesConclude(before: State, s: State, e: Event, session: Session, gen: nat)
    requires Leaves(before, s, session, gen) && e.Conclude? && MayMove(s, e)
    ensures Leaves(before, DoMove(s, e), session, gen)
  {
    hide Concluded, Verdict;
  }

  lemma LeavesAdmit(before: State, s: State, e: Event, session: Session, gen: nat)
    requires MemberInv(s) && Leaves(before, s, session, gen) && e.Admit? && MayMove(s, e)
    ensures Leaves(before, DoMove(s, e), session, gen)
  {
    if s.ops[s.phase.o].session == session { assert !Reusable(s, session, s.phase.gen); }
  }

  lemma LeavesSend(before: State, s: State, e: Event, session: Session, gen: nat)
    requires Leaves(before, s, session, gen) && e.Send? && MayMove(s, e)
    ensures Leaves(before, DoMove(s, e), session, gen)
  {
  }

  lemma LeavingRowHeld(s: State, e: Event, session: Session, gen: nat)
    requires ByHolding(e) && MayHold(s, e) && (session, gen) !in s.orphans
    requires session in s.runtimes && s.runtimes[session] == Runtime(gen, None, true)
    requires session in s.members && s.members[session] == Member(gen, Leaving)
    requires InMemory(DoHold(s, e), session, gen)
    ensures DoHold(s, e).members[session] == Member(gen, Leaving)
  {
  }

  lemma LeavingRowEnds(s: State, e: Event, session: Session, gen: nat)
    requires EndsHolding(e) && MayEnd(s, e) && (session, gen) !in s.orphans
    requires session in s.runtimes && s.runtimes[session] == Runtime(gen, None, true)
    requires session in s.members && s.members[session] == Member(gen, Leaving)
    requires InMemory(DoEnd(s, e), session, gen)
    ensures session in DoEnd(s, e).members && DoEnd(s, e).members[session] == Member(gen, Leaving)
  {
    if e.Dismissed? {
      DismissedShape(s, e);
      DismissedIsOrphan(s, e);
      hide DoEnd, MayEnd;
    } else if e.Reconcile? {
      hide SetMember, DropMember, Current;
    } else {
      hide Current;
    }
  }

  lemma LeavingRowTurns(s: State, e: Event, session: Session, gen: nat)
    requires ByTurns(e) && MayTurn(s, e)
    requires session in s.runtimes && s.runtimes[session] == Runtime(gen, None, true)
    requires session in s.members && s.members[session] == Member(gen, Leaving)
    ensures DoTurn(s, e).members[session] == Member(gen, Leaving)
  {
    hide Live, Final, Updated;
  }

  lemma LeavingRowStays(l: Limits, s: State, e: Event, session: Session, gen: nat)
    requires MemberInv(s) && GenInv(s) && Enabled(l, s, e) && !ByLoop(e)
    requires session in s.runtimes && s.runtimes[session] == Runtime(gen, None, true)
    requires session in s.members && s.members[session] == Member(gen, Leaving)
    requires InMemory(Do(l, s, e), session, gen)
    ensures session in Do(l, s, e).members && Do(l, s, e).members[session] == Member(gen, Leaving)
  {
    ByKind(l, s, e);
    assert (session, gen) !in s.orphans;
    if ByProcess(e) { ProcessHasForgotten(s, e); }
    hide Enabled, Do, MemberInv, GenInv, ByLoop, MayTurn, MayHold, MayEnd, MayProcess, DoTurn, DoHold, DoEnd, DoProcess;
    if ByTurns(e) { LeavingRowTurns(s, e, session, gen); }
    else if ByHolding(e) { LeavingRowHeld(s, e, session, gen); }
    else if EndsHolding(e) { LeavingRowEnds(s, e, session, gen); }
  }

  lemma LeavesOutside(l: Limits, before: State, s: State, e: Event, session: Session, gen: nat)
    requires MemberInv(s) && SentInv(s) && GenInv(s) && Leaves(before, s, session, gen)
    requires Enabled(l, s, e) && !ByLoop(e)
    requires InMemory(Do(l, s, e), session, gen)
    ensures Leaves(before, Do(l, s, e), session, gen)
  {
    hide Enabled, Do, MemberInv, SentInv, Live, CalmStep;
    OutsideIsCalm(l, s, e);
    RetiringOutside(l, s, e, session);
    LeavingRowStays(l, s, e, session, gen);
    SentAreKnown(s);
    LeavesOn(before, s, Do(l, s, e), e, session, gen);
  }

  lemma RetireLeaves(l: Limits, s: State, session: Session)
    requires MemberInv(s) && SentInv(s) && GenInv(s) && Enabled(l, s, Retire(session, true))
    ensures var gen, s' := s.runtimes[session].gen, Do(l, s, Retire(session, true));
            Leaves(s, s', session, gen) && NotComing(s', session, gen)
  {
    hide MayChoose, MaySend;
  }

  /** Automatic eviction removes only idle members that no turn has claimed: from the moment it begins,
      whatever happens, and for as long as the runtime is in memory, the runtime has no turn, its row is
      the retiring one of the same generation, and no turn of its conversation becomes active or is sent.
      Once gone from memory that generation does not come back. */
  lemma {:induction false} EvictionSparesWork(l: Limits, es: seq<Event>, session: Session, more: seq<Event>)
    requires Enabled(l, Run(l, es), Retire(session, true))
    ensures var s, s' := Run(l, es), Run(l, es + [Retire(session, true)] + more);
            var gen := s.runtimes[session].gen;
            && s.runtimes[session].operation.None? && session in s.members && s.members[session] == Member(gen, Idle)
            && NotComing(s', session, gen)
            && (InMemory(s', session, gen) ==> Leaves(s, s', session, gen))
    decreases |more|
  {
    var s, begun := Run(l, es), es + [Retire(session, true)];
    var gen := s.runtimes[session].gen;
    assert s.runtimes[session].operation.None? && session in s.members && s.members[session] == Member(gen, Idle);
    hide Enabled, Do, MemberInv, SentInv, GenInv, Leaves, NotComing, Run;
    RunKeepsHolders(l, es);
    RunKeepsSent(l, es);
    if more == [] {
      assert begun + more == begun;
      RunOneMore(l, es, Retire(session, true));
      RetireLeaves(l, s, session);
    } else {
      var most, e := more[..|more| - 1], more[|more| - 1];
      EvictionSparesWork(l, es, session, most);
      assert begun + more == begun + most + [e];
      RunOneMore(l, begun + most, e);
      RunKeepsHolders(l, begun + most);
      RunKeepsSent(l, begun + most);
      EvictionStep(l, s, Run(l, begun + most), e, session, gen);
    }
  }

  lemma EvictionStep(l: Limits, before: State, s: State, e: Event, session: Session, gen: nat)
    requires MemberInv(s) && SentInv(s) && GenInv(s) && NotComing(s, session, gen)
    requires InMemory(s, session, gen) ==> Leaves(before, s, session, gen)
    ensures NotComing(Step(l, s, e), session, gen)
    ensures InMemory(Step(l, s, e), session, gen) ==> Leaves(before, Step(l, s, e), session, gen)
  {
    hide Enabled, Do, MemberInv, SentInv, GenInv, Leaves, NotComing;
    if Enabled(l, s, e) {
      NotComingStep(l, s, e, session, gen);
      if InMemory(Do(l, s, e), session, gen) {
        if ByLoop(e) { LeavesLoop(l, before, s, e, session, gen); }
        else { LeavesOutside(l, before, s, e, session, gen); }
      }
    }
  }

  /** And the row that a confirmed eviction deletes is that row and no other. */
  lemma EvictionRemovesItsRow(l: Limits, es: seq<Event>, session: Session, more: seq<Event>)
    requires Enabled(l, Run(l, es), Retire(session, true))
    requires InMemory(Run(l, es + [Retire(session, true)] + more), session, Run(l, es).runtimes[session].gen)
    ensures var s' := Run(l, es + [Retire(session, true)] + more);
            var gone := Step(l, s', Retired(session, true));
            && gone == s'.(runtimes := s'.runtimes - {session}, members := s'.members - {session})
            && session in s'.members && s'.members[session].gen == Run(l, es).runtimes[session].gen
  {
    hide Run;
    EvictionSparesWork(l, es, session, more);
    var s' := Run(l, es + [Retire(session, true)] + more);
    assert Leaves(Run(l, es), s', session, s'.runtimes[session].gen);
    assert Step(l, s', Retired(session, true)) == Forgotten(s', session);
  }

  // ----- what a turn's state says ----------------------------------------------------------------------------------

  /** The turn of a runtime is one of its own conversation. */
  predicate OwnTurns(s: State) {
    forall m :: m in s.runtimes && s.runtimes[m].operation.Some? ==>
      s.runtimes[m].operation.value in s.ops && s.ops[s.runtimes[m].operation.value].session == m
  }

  predicate Carried(s: State, session: Session, o: Id) {
    session in s.runtimes && s.runtimes[session].operation == Some(o)
  }

  /** The event puts turn `o` into that state. */
  predicate Gives(s: State, e: Event, o: Id, state: OpState) {
    match e
    case Submit(id, _) => id == o && state.Queued?
    case CancelQueued(id) => id == o && state.Interrupted?
    case Refuse => s.phase.Picking? && s.phase.todo != [] && s.phase.todo[0] == o && state.Broken?
    case Admit(committed, _) => committed && s.phase.Admitting? && s.phase.o == o && state.Dispatching?
    case MarkRunning => s.phase.Marking? && s.phase.o == o && state.Running?
    case Conclude(saved, _) => saved && s.phase.Failing? && s.phase.o == o && (state.Uncertain? || state.Broken?)
    case Complete(session, outcome) => Carried(s, session, o) && state == outcome
    case Halt(session) => Carried(s, session, o) && state.Interrupted?
    case Ask(session) => Carried(s, session, o) && state.AwaitingUser?
    case Repair(id) => id == o && state.Uncertain?
    case Doubt(id) => id == o && state.Uncertain?
    case Restart(_) => state.Uncertain?
    case _ => false
  }

  predicate Changed(s: State, s': State, o: Id)
    requires o in s'.ops
  {
    o !in s.ops || s'.ops[o].state != s.ops[o].state
  }

  lemma OnlyRefusalsWrite(l: Limits, s: State, e: Event)
    requires Picks(e) && MayPick(l, s, e) && !e.Refuse?
    ensures DoPick(l, s, e).ops == s.ops
  {
    hide Busy, LiveTurns;
  }

  lemma PickGives(l: Limits, s: State, e: Event, o: Id)
    requires Picks(e) && MayPick(l, s, e) && o in DoPick(l, s, e).ops && Changed(s, DoPick(l, s, e), o)
    ensures Gives(s, e, o, DoPick(l, s, e).ops[o].state)
  {
    hide MayChoose;
    if !e.Refuse? { OnlyRefusalsWrite(l, s, e); }
  }

  lemma MoveGives(s: State, e: Event, o: Id)
    requires Moves(e) && MayMove(s, e) && o in DoMove(s, e).ops && Changed(s, DoMove(s, e), o)
    ensures Gives(s, e, o, DoMove(s, e).ops[o].state)
  {
    hide MayMove, DoMove, Gives, Changed;
    if e.Admit? { AdmissionGives(s, e, o); }
    else if e.Conclude? { CatchGives(s, e, o); }
    else { LateGives(s, e, o); }
  }

  lemma AdmissionGives(s: State, e: Event, o: Id)
    requires e.Admit? && MayMove(s, e) && o in DoMove(s, e).ops && Changed(s, DoMove(s, e), o)
    ensures Gives(s, e, o, DoMove(s, e).ops[o].state)
  {
    hide Reusable;
  }

  lemma CatchGives(s: State, e: Event, o: Id)
    requires e.Conclude? && MayMove(s, e) && o in DoMove(s, e).ops && Changed(s, DoMove(s, e), o)
    ensures Gives(s, e, o, DoMove(s, e).ops[o].state)
  {
    hide Concluded, Verdict;
  }

  lemma LateGives(s: State, e: Event, o: Id)
    requires Moves(e) && !e.Admit? && !e.Conclude? && MayMove(s, e)
    requires o in DoMove(s, e).ops && Changed(s, DoMove(s, e), o)
    ensures Gives(s, e, o, DoMove(s, e).ops[o].state)
  {
    hide MaySend;
  }

  lemma TurnGives(s: State, e: Event, o: Id)
    requires ByTurns(e) && MayTurn(s, e) && o in DoTurn(s, e).ops && Changed(s, DoTurn(s, e), o)
    ensures Gives(s, e, o, DoTurn(s, e).ops[o].state)
  {
    hide SetMember;
  }

  lemma ProcessGives(s: State, e: Event, o: Id)
    requires ByProcess(e) && MayProcess(s, e) && o in DoProcess(s, e).ops && Changed(s, DoProcess(s, e), o)
    ensures Gives(s, e, o, DoProcess(s, e).ops[o].state)
  {
  }

  lemma OtherGives(l: Limits, s: State, e: Event, o: Id)
    requires Enabled(l, s, e) && (ByHolding(e) || EndsHolding(e) || ByProcess(e))
    requires o in Do(l, s, e).ops && Changed(s, Do(l, s, e), o)
    ensures Gives(s, e, o, Do(l, s, e).ops[o].state)
  {
    hide Enabled, Do, MayHold, DoHold, MayEnd, DoEnd, MayProcess, DoProcess;
    ByKind(l, s, e);
    if ByHolding(e) { HoldShape(s, e); }
    else if EndsHolding(e) { EndShape(s, e); }
    else { ProcessGives(s, e, o); }
  }

  lemma StepGives(l: Limits, s: State, e: Event, o: Id)
    requires o in Step(l, s, e).ops && Changed(s, Step(l, s, e), o)
    ensures Enabled(l, s, e) && Gives(s, e, o, Step(l, s, e).ops[o].state)
  {
    hide Enabled, Do, Step, Gives, MayPick, DoPick, MayMove, DoMove, MayTurn, DoTurn, MayHold, MayEnd, MayProcess;
    ByKind(l, s, e);
    if Picks(e) { PickGives(l, s, e, o); }
    else if Moves(e) { MoveGives(s, e, o); }
    else if ByTurns(e) { TurnGives(s, e, o); }
    else { OtherGives(l, s, e, o); }
  }

  /** In every reachable state each turn is in the state that some event of the run gave it: a turn that
      has succeeded was completed as succeeded, one that has failed was completed so, refused or
      concluded by the catch, an interrupted one completed so, cancelled or halted. */
  lemma {:induction false} StateHasCause(l: Limits, es: seq<Event>, o: Id)
    requires o in Run(l, es).ops
    ensures exists k :: 0 <= k < |es| && Enabled(l, Run(l, es[..k]), es[k])
                        && Gives(Run(l, es[..k]), es[k], o, Run(l, es).ops[o].state)
    decreases |es|
  {
    hide Enabled, Step, Gives;
    assert es != [];
    var n, before := |es| - 1, es[..|es| - 1];
    if Changed(Run(l, before), Run(l, es), o) {
      StepGives(l, Run(l, before), es[n], o);
    } else {
      StateHasCause(l, before, o);
      var k :| 0 <= k < n && Enabled(l, Run(l, before[..k]), before[k])
               && Gives(Run(l, before[..k]), before[k], o, Run(l, before).ops[o].state);
      assert before[..k] == es[..k] && before[k] == es[k];
    }
  }

  /** So a turn has succeeded only if a completion of it said so. */
  lemma SucceededWasCompleted(l: Limits, es: seq<Event>, o: Id)
    requires o in Run(l, es).ops && Run(l, es).ops[o].state.Succeeded?
    ensures exists k, session :: 0 <= k < |es| && es[k] == Complete(session, Succeeded)
                                 && Carried(Run(l, es[..k]), session, o)
  {
    hide Enabled, Run;
    StateHasCause(l, es, o);
  }

  lemma MoveKeepsTurns(s: State, e: Event)
    requires OwnTurns(s) && Moves(e) && MayMove(s, e)
    ensures OwnTurns(DoMove(s, e))
  {
    hide OwnTurns, MayMove, DoMove;
    if e.Admit? { AdmissionKeepsTurns(s, e); } else { LateKeepsTurns(s, e); }
  }

  lemma AdmissionKeepsTurns(s: State, e: Event)
    requires OwnTurns(s) && e.Admit? && MayMove(s, e)
    ensures OwnTurns(DoMove(s, e))
  {
    AdmittedShape(s, e.committed);
  }

  lemma LateKeepsTurns(s: State, e: Event)
    requires OwnTurns(s) && Moves(e) && !e.Admit? && MayMove(s, e)
    ensures OwnTurns(DoMove(s, e))
  {
    hide Concluded, Verdict, MaySend;
  }

  lemma PickKeepsTurns(l: Limits, s: State, e: Event)
    requires OwnTurns(s) && Picks(e) && MayPick(l, s, e)
    ensures OwnTurns(DoPick(l, s, e))
  {
    hide MayPick, DoPick;
    PickShape(l, s, e);
  }

  lemma ProcessKeepsTurns(s: State, e: Event)
    requires OwnTurns(s) && ByProcess(e) && MayProcess(s, e)
    ensures OwnTurns(DoProcess(s, e))
  {
    hide Live;
  }

  lemma OthersKeepTurns(l: Limits, s: State, e: Event)
    requires OwnTurns(s) && Enabled(l, s, e) && !ByLoop(e)
    ensures OwnTurns(Do(l, s, e))
  {
    hide Enabled, Do, MayTurn, DoTurn, MayHold, DoHold, MayEnd, DoEnd, MayProcess, DoProcess;
    ByKind(l, s, e);
    if ByTurns(e) { TurnShape(s, e); }
    else if ByHolding(e) { HoldShape(s, e); }
    else if EndsHolding(e) { EndShape(s, e); }
    else { ProcessKeepsTurns(s, e); }
  }

  lemma StepKeepsTurns(l: Limits, s: State, e: Event)
    requires OwnTurns(s)
    ensures OwnTurns(Step(l, s, e))
  {
    hide *;
    ByKind(l, s, e);
    if Enabled(l, s, e) {
      if Picks(e) { PickKeepsTurns(l, s, e); }
      else if Moves(e) { MoveKeepsTurns(s, e); }
      else { OthersKeepTurns(l, s, e); }
    }
  }

  lemma {:induction false} RunKeepsTurns(l: Limits, es: seq<Event>)
    ensures OwnTurns(Run(l, es))
    decreases |es|
  {
    hide OwnTurns, Step;
    if es == [] {
      StartHasNoTurns();
    } else {
      RunKeepsTurns(l, es[..|es| - 1]);
      StepKeepsTurns(l, Run(l, es[..|es| - 1]), es[|es| - 1]);
    }
  }

  lemma StartHasNoTurns()
    ensures OwnTurns(START)
  {
  }

  lemma CompletionWrites(s: State, session: Session, outcome: OpState)
    requires MayTurn(s, Complete(session, outcome))
    ensures session in s.runtimes && s.runtimes[session].operation.Some? && Final(outcome)
    ensures var o, s' := s.runtimes[session].operation.value, DoTurn(s, Complete(session, outcome));
            o in s.ops && s'.ops == s.ops[o := Turn(s.ops[o].session, outcome)] && s'.sent == s.sent
  {
    hide Live;
  }

  /** A completion records exactly its outcome, in the turn that the conversation's runtime carries and
      in no other. */
  lemma CompletionRecords(l: Limits, es: seq<Event>, session: Session, outcome: OpState)
    requires Enabled(l, Run(l, es), Complete(session, outcome))
    ensures var s, s' := Run(l, es), Run(l, es + [Complete(session, outcome)]);
            && session in s.runtimes && s.runtimes[session].operation.Some?
            && (outcome.Succeeded? || outcome.Broken? || outcome.Interrupted?)
            && var o := s.runtimes[session].operation.value;
               && o in s.ops && s.ops[o].session == session
               && s'.ops == s.ops[o := Turn(session, outcome)] && s'.sent == s.sent
  {
    hide Run, Enabled, Do, MayTurn, DoTurn;
    RunKeepsTurns(l, es);
    RunOneMore(l, es, Complete(session, outcome));
    ByKind(l, Run(l, es), Complete(session, outcome));
    CompletionWrites(Run(l, es), session, outcome);
  }

  /** What users and notices record: in the turn that they name, or that the runtime carries, and in no
      other. An uncertain turn stays uncertain when it is halted, a finished one stays when it is repaired. */
  lemma TurnEventsRecord(s: State, e: Event)
    requires ByTurns(e) && MayTurn(s, e)
    ensures var ops := DoTurn(s, e).ops;
            match e
            case Submit(id, session) => id !in s.ops && ops == s.ops[id := Turn(session, Queued)]
            case CancelQueued(id) => id in s.ops && ops == s.ops[id := Turn(s.ops[id].session, Interrupted)]
            case Doubt(id) => id in s.ops && ops == s.ops[id := Turn(s.ops[id].session, Uncertain)]
            case Repair(id) =>
              id in s.ops ==> ops == s.ops[id := Turn(s.ops[id].session,
                                                     if Final(s.ops[id].state) then s.ops[id].state else Uncertain)]
            case Halt(session) =>
              var o := s.runtimes[session].operation.value;
              o in s.ops ==> ops == s.ops[o := Turn(s.ops[o].session,
                                                   if s.ops[o].state.Uncertain? then Uncertain else Interrupted)]
            case Ask(session) =>
              var o := s.runtimes[session].operation.value;
              o in s.ops && ops == s.ops[o := Turn(s.ops[o].session, AwaitingUser)]
            case _ => true
  {
  }

  // ----- what a step leaves in rows and memory ---------------------------------------------------------------------

  /** Going on to the next candidate: a refused one has failed, unless it is in doubt; the others are as
      they were. */
  lemma PassingLeaves(l: Limits, s: State, e: Event)
    requires (e.Tick? || e.Skip? || e.Refuse?) && MayPick(l, s, e)
    ensures e.Tick? ==> DoPick(l, s, e) == s.(phase := Picking(e.found))
    ensures e.Skip? ==>
              && s.phase.Picking?
              && DoPick(l, s, e) == s.(phase := if s.phase.todo == [] then Resting else Picking(s.phase.todo[1..]))
    ensures e.Refuse? ==>
              && s.phase.Picking? && s.phase.todo != []
              && var o := s.phase.todo[0];
                 DoPick(l, s, e) ==
                 s.(ops := if o in s.ops && !s.ops[o].state.Uncertain? then s.ops[o := Turn(s.ops[o].session, Broken)]
                           else s.ops,
                    phase := Picking(s.phase.todo[1..]))
  {
  }

  /** The chosen turn uses its conversation's runtime under the generation that has, or is to start one
      under a generation drawn for it; a runtime that is replaced goes with its row. */
  lemma ChoiceLeaves(l: Limits, s: State, e: Event)
    requires MemberInv(s) && (e.Choose? || e.Replace?) && MayPick(l, s, e)
    ensures s.phase.Picking? && s.phase.todo != [] && s.phase.todo[0] in s.ops
    ensures var o, rest := s.phase.todo[0], s.phase.todo[1..];
            var m := s.ops[o].session;
            && (e.Choose? && m in s.runtimes ==>
                  DoPick(l, s, e) == s.(phase := Admitting(o, rest, s.runtimes[m].gen, true)))
            && (e.Choose? && m !in s.runtimes ==>
                  DoPick(l, s, e) == s.(phase := Admitting(o, rest, s.next, false), next := s.next + 1))
            && (e.Replace? ==>
                  DoPick(l, s, e) == s.(phase := Admitting(o, rest, s.next, false), next := s.next + 1,
                                        runtimes := s.runtimes - {m}, members := s.members - {m}))
  {
    hide Busy, LiveTurns;
  }

  /** A committed admission makes a queued turn active and gives the conversation its generation and its
      row; one that did not commit leaves the rows as they were. A running conversation that is to be used
      carries the turn in memory either way. */
  lemma AdmissionLeaves(s: State, committed: bool, replied: bool)
    requires MayMove(s, Admit(committed, replied))
    ensures var s', o, session := DoMove(s, Admit(committed, replied)), s.phase.o, s.ops[s.phase.o].session;
            && s'.ops == (if committed && s.ops[o].state.Queued? then s.ops[o := Turn(session, Dispatching)] else s.ops)
            && s'.gens == (if committed then s.gens[session := s.phase.gen] else s.gens)
            && s'.members == (if committed
                              then s.members[session := Member(s.phase.gen, if s.phase.reuse then Active else Starting)]
                              else s.members)
            && s'.sent == s.sent && s'.orphans == s.orphans
  {
    hide Reusable;
  }

  lemma AdmissionCarries(s: State, committed: bool, replied: bool)
    requires MayMove(s, Admit(committed, replied))
    ensures var s', session := DoMove(s, Admit(committed, replied)), s.ops[s.phase.o].session;
            && (s.phase.reuse && Reusable(s, session, s.phase.gen) ==>
                  s'.runtimes == s.runtimes[session := Runtime(s.phase.gen, Some(s.phase.o), false)])
            && (!(s.phase.reuse && Reusable(s, session, s.phase.gen)) ==> s'.runtimes == s.runtimes)
            && (!replied ==> s'.phase == Failing(s.phase.o, s.phase.rest, s.phase.gen, false, s.phase.reuse))
            && (replied ==> s'.phase == if s.phase.reuse then Sending(s.phase.o, s.phase.rest, s.phase.gen, true)
                                        else Creating(s.phase.o, s.phase.rest, s.phase.gen))
  {
  }

  /** A start that succeeded is a runtime in memory with its turn; one that failed after an attempt leaves
      its generation to be retired. */
  lemma CreationLeaves(s: State, made: bool, attempted: bool)
    requires MayMove(s, Create(made, attempted))
    ensures var s', session := DoMove(s, Create(made, attempted)), s.ops[s.phase.o].session;
            && s'.ops == s.ops && s'.members == s.members && s'.gens == s.gens && s'.sent == s.sent
            && s'.runtimes == (if made then s.runtimes[session := Runtime(s.phase.gen, Some(s.phase.o), false)]
                               else s.runtimes)
            && s'.orphans == (if attempted && !made then s.orphans[(session, s.phase.gen) := false] else s.orphans)
            && s'.phase == if made then Sending(s.phase.o, s.phase.rest, s.phase.gen, false)
                           else Failing(s.phase.o, s.phase.rest, s.phase.gen, attempted, false)
  {
  }

  /** A delivery is noted once, at the end; without a reply the catch comes next, and it takes a runtime
      that this turn started for an attempt. */
  lemma SendingLeaves(s: State, delivered: bool, replied: bool)
    requires MayMove(s, Send(delivered, replied))
    ensures DoMove(s, Send(delivered, replied)) ==
            s.(sent := s.sent + if delivered then [s.phase.o] else [],
               phase := if replied then Marking(s.phase.o, s.phase.rest)
                        else Failing(s.phase.o, s.phase.rest, s.phase.gen, !s.phase.reuse, s.phase.reuse))
  {
    hide MaySend;
    assert s.sent + [] == s.sent;
  }

  lemma MarkingLeaves(s: State)
    requires MayMove(s, MarkRunning)
    ensures var o := s.phase.o;
            DoMove(s, MarkRunning) ==
            s.(ops := if o in s.ops && s.ops[o].state.Dispatching? then s.ops[o := Turn(s.ops[o].session, Running)]
                      else s.ops,
               phase := Picking(s.phase.rest))
  {
  }

  /** A saved catch: a turn that was never taken, or that had neither a runtime in memory nor an attempt at
      one, is recorded as failed, any other as uncertain. */
  lemma CatchRecords(s: State, bare: bool)
    requires MayMove(s, Conclude(true, bare))
    ensures var s', o := DoMove(s, Conclude(true, bare)), s.phase.o;
            var nothing := s.ops[o].session !in s.runtimes && !s.phase.attempted;
            && s'.ops == s.ops[o := Turn(s.ops[o].session,
                                         if s.ops[o].state.Uncertain? then Uncertain
                                         else if s.ops[o].state.Queued? || nothing then Broken
                                         else if Final(s.ops[o].state) then s.ops[o].state
                                         else Uncertain)]
            && s'.phase == Picking(s.phase.rest) && s'.runtimes == s.runtimes && s'.gens == s.gens
  {
    CatchWrites(s, bare);
    hide Concluded;
  }

  lemma CatchWrites(s: State, bare: bool)
    requires s.phase.Failing? && s.phase.o in s.ops
    ensures Concluded(s, bare).ops == s.ops[s.phase.o := Updated(s.ops[s.phase.o], Verdict(s))]
  {
    hide Updated, Verdict;
  }

  /** Of the rows it touches that of the generation it tried, if no runtime is in memory: a row that never
      got as far as an identity goes when nothing was attempted, and the row is in doubt when something was. */
  lemma CatchLeavesRows(s: State, bare: bool)
    requires MayMove(s, Conclude(true, bare))
    ensures var s', session, gen := DoMove(s, Conclude(true, bare)), s.ops[s.phase.o].session, s.phase.gen;
            var own := session !in s.runtimes && session in s.members && s.members[session].gen == gen;
            s'.members == if own && s.phase.attempted then s.members[session := Member(gen, Unknown)]
                          else if own && bare && s.members[session].state.Starting? then s.members - {session}
                          else s.members
  {
    hide Updated, Verdict;
  }

  /** What befalls a runtime leaves these rows: while it is in memory its row is of its generation. */
  lemma HoldingLeaves(s: State, e: Event)
    requires MemberInv(s) && ByHolding(e) && MayHold(s, e) && !e.Dismiss?
    ensures var s', m := DoHold(s, e), e.session;
            && m in s.runtimes
            && match e
               case Classify(_, state) => s' == s.(members := s.members[m := Member(s.runtimes[m].gen, state)])
               case Poison(_) =>
                 s' == s.(runtimes := s.runtimes - {m},
                          orphans := s.orphans[(m, s.runtimes[m].gen) := s.runtimes[m].retiring],
                          repairs := s.repairs + if s.runtimes[m].operation.Some? then {s.runtimes[m].operation.value}
                                                 else {})
               case Retire(_, _) =>
                 s' == s.(runtimes := s.runtimes[m := s.runtimes[m].(retiring := true)],
                          members := s.members[m := Member(s.runtimes[m].gen, Leaving)])
               case _ => true
  {
    hide Current;
    assert s.repairs + {} == s.repairs;
  }

  /** The retirement of an orphan is admitted once, and shows in a row of its generation. */
  lemma DismissalLeaves(s: State, m: Session, gen: nat)
    requires MayHold(s, Dismiss(m, gen))
    ensures (m, gen) in s.orphans && !s.orphans[(m, gen)] && Current(s, m, gen)
    ensures DoHold(s, Dismiss(m, gen)) ==
            s.(orphans := s.orphans[(m, gen) := true],
               members := if m in s.members && s.members[m].gen == gen then s.members[m := Member(gen, Leaving)]
                          else s.members)
  {
  }

  /** The end of a retirement: confirmed, the row goes; else it is in doubt. The runtime or the orphan is
      gone from memory either way. */
  lemma RetirementLeaves(s: State, m: Session, confirmed: bool)
    requires MemberInv(s) && MayEnd(s, Retired(m, confirmed))
    ensures m in s.runtimes && s.runtimes[m].retiring
    ensures DoEnd(s, Retired(m, confirmed)) ==
            s.(runtimes := s.runtimes - {m},
               members := if confirmed then s.members - {m} else s.members[m := Member(s.runtimes[m].gen, Unknown)])
  {
    hide Current;
  }

  lemma DismissedLeaves(s: State, m: Session, gen: nat, confirmed: bool)
    requires RowsInv(s) && MayEnd(s, Dismissed(m, gen, confirmed))
    ensures var own := m in s.members && s.members[m].gen == gen;
            DoEnd(s, Dismissed(m, gen, confirmed)) ==
            s.(orphans := s.orphans - {(m, gen)},
               members := if own && confirmed then s.members - {m}
                          else if own then s.members[m := Member(gen, Unknown)] else s.members)
  {
  }

  /** A completion leaves the row idle and a question leaves it active; other notices do not touch rows. */
  lemma NoticesLeaveRows(s: State, e: Event)
    requires MemberInv(s) && ByTurns(e) && MayTurn(s, e)
    ensures e.Complete? ==> e.session in s.runtimes
                            && DoTurn(s, e).members == s.members[e.session := Member(s.runtimes[e.session].gen, Idle)]
    ensures e.Ask? ==> e.session in s.runtimes
                       && DoTurn(s, e).members == s.members[e.session := Member(s.runtimes[e.session].gen, Active)]
    ensures !e.Complete? && !e.Ask? ==> DoTurn(s, e).members == s.members
    ensures e.Clear? ==> e.session in s.runtimes
                         && DoTurn(s, e).runtimes
                            == s.runtimes[e.session := s.runtimes[e.session].(operation := None)]
    ensures !e.Clear? ==> DoTurn(s, e).runtimes == s.runtimes
    ensures DoTurn(s, e).acked == (if e.Acknowledge? then s.acked + {e.id} else s.acked)
    ensures DoTurn(s, e).repairs == (if e.Repair? then s.repairs - {e.id} else s.repairs)
  {
    hide Live, Final, Current, Updated;
  }

  /** A crash takes memory and leaves rows, turns and generations; the next supervisor finds no active turn. */
  lemma CrashLeaves(s: State, absent: set<Session>)
    ensures DoProcess(s, Crash) == s.(runtimes := map[], repairs := {}, orphans := map[], phase := Down)
    ensures s.phase.Down? ==>
              var s' := DoProcess(s, Restart(absent));
              && s'.phase == Resting && s'.gens == s.gens && s'.sent == s.sent && s'.ops.Keys == s.ops.Keys
              && forall o :: o in s.ops ==>
                   s'.ops[o] == if s.ops[o].state in {Dispatching, Running, AwaitingUser}
                                then Turn(s.ops[o].session, Uncertain) else s.ops[o]
    ensures s.phase.Down? ==> forall m :: m in s.members && !Current(s, m, s.members[m].gen) ==>
              m in DoProcess(s, Restart(absent)).members && DoProcess(s, Restart(absent)).members[m] == s.members[m]
  {
    hide Current;
  }

  // ----- what the loop's checks come to ------------------------------------------------------------------------------

  /** In reachable states: a runtime is taken for another turn exactly when it is free, not retiring, of the
      generation that was chosen, and its row idle or protected. */
  lemma ReuseExactly(l: Limits, es: seq<Event>, m: Session, gen: nat)
    ensures var s := Run(l, es);
            Reusable(s, m, gen) <==>
              m in s.runtimes && s.runtimes[m] == Runtime(gen, None, false)
              && m in s.members && s.members[m].state in {Idle, Protected}
  {
    hide Run;
    RunKeepsMembers(l, es);
  }

  /** And a turn is sent exactly to a runtime of the generation it was admitted under, that is not retiring,
      in a conversation without an uncertain turn that nobody acknowledged. */
  lemma SendingExactly(l: Limits, es: seq<Event>)
    requires Run(l, es).phase.Sending? && Run(l, es).phase.o in Run(l, es).ops
    ensures var s := Run(l, es);
            var m := s.ops[s.phase.o].session;
            MaySend(s) <==>
              && m in s.runtimes && s.runtimes[m].gen == s.phase.gen && !s.runtimes[m].retiring
              && forall o :: o in s.ops && s.ops[o].session == m && s.ops[o].state.Uncertain? ==> o in s.acked
  {
    hide Run;
    RunKeepsMembers(l, es);
  }

  /** The loop settles on a candidate exactly when its conversation has no active turn, fewer turns are
      active than may be, and the conversation has a runtime or there is a place for one. */
  lemma ChoosingExactly(l: Limits, s: State, o: Id)
    requires o in s.ops
    ensures var m := s.ops[o].session;
            var active := set x | x in s.ops && s.ops[x].state in {Dispatching, Running, AwaitingUser};
            MayChoose(l, s, o) <==>
              && (forall x :: x in active ==> s.ops[x].session != m) && |active| < l.turns
              && (m in s.runtimes || (m !in s.members && |s.members| < l.runtimes))
  {
    assert LiveTurns(s.ops) == set x | x in s.ops && s.ops[x].state in {Dispatching, Running, AwaitingUser};
  }

  // ----- conversations do not touch each other ---------------------------------------------------------------------

  /** The conversation that an event is about; a crash and a restart are about all. */
  predicate Concerns(s: State, e: Event, m: Session) {
    match e
    case Submit(_, session) => session == m
    case CancelQueued(id) => id in s.ops && s.ops[id].session == m
    case Acknowledge(_) => false
    case Repair(id) => id in s.ops && s.ops[id].session == m
    case Doubt(id) => id in s.ops && s.ops[id].session == m
    case Crash => true
    case Restart(_) => true
    case Complete(session, _) => session == m
    case Halt(session) => session == m
    case Clear(session) => session == m
    case Ask(session) => session == m
    case Classify(session, _) => session == m
    case Poison(session) => session == m
    case Retire(session, _) => session == m
    case Retired(session, _) => session == m
    case Dismiss(session, _) => session == m
    case Dismissed(session, _, _) => session == m
    case Reconcile(session) => session == m
    case _ =>
      if s.phase.Picking? then
        s.phase.todo != [] && s.phase.todo[0] in s.ops && s.ops[s.phase.todo[0]].session == m
      else if s.phase.Down? || s.phase.Resting? then false
      else s.phase.o in s.ops && s.ops[s.phase.o].session == m
  }

  /** Turns, generation, row, runtime and orphans of the conversation are as before. */
  ghost predicate Apart(s: State, s': State, m: Session) {
    && (m in s.members <==> m in s'.members) && (m in s.members ==> s'.members[m] == s.members[m])
    && (m in s.runtimes <==> m in s'.runtimes) && (m in s.runtimes ==> s'.runtimes[m] == s.runtimes[m])
    && (m in s.gens <==> m in s'.gens) && (m in s.gens ==> s'.gens[m] == s.gens[m])
    && (forall o :: o in s.ops && s.ops[o].session == m ==> o in s'.ops && s'.ops[o] == s.ops[o])
    && (forall o :: o in s'.ops && s'.ops[o].session == m ==> o in s.ops)
    && (forall gen: nat :: ((m, gen) in s.orphans <==> (m, gen) in s'.orphans)
                           && ((m, gen) in s.orphans ==> s'.orphans[(m, gen)] == s.orphans[(m, gen)]))
  }

  lemma PickIsApart(l: Limits, s: State, e: Event, m: Session)
    requires MemberInv(s) && Picks(e) && MayPick(l, s, e) && !Concerns(s, e, m)
    ensures Apart(s, DoPick(l, s, e), m)
  {
    hide DoPick, MayPick, MemberInv;
    if e.Choose? || e.Replace? { ChoiceLeaves(l, s, e); } else { PassingLeaves(l, s, e); }
  }

  lemma AdmissionIsApart(s: State, e: Event, m: Session)
    requires e.Admit? && MayMove(s, e) && !Concerns(s, e, m)
    ensures Apart(s, DoMove(s, e), m)
  {
    hide DoMove, Reusable;
    AdmissionLeaves(s, e.committed, e.replied);
    AdmissionCarries(s, e.committed, e.replied);
  }

  lemma CreationIsApart(s: State, e: Event, m: Session)
    requires e.Create? && MayMove(s, e) && !Concerns(s, e, m)
    ensures Apart(s, DoMove(s, e), m)
  {
    hide DoMove;
    CreationLeaves(s, e.made, e.attempted);
  }

  lemma SendingIsApart(s: State, e: Event, m: Session)
    requires (e.Send? || e.MarkRunning? || e.Decline?) && MayMove(s, e) && !Concerns(s, e, m)
    ensures Apart(s, DoMove(s, e), m)
  {
    hide DoMove, MaySend;
    if e.Send? { SendingLeaves(s, e.delivered, e.replied); }
    else if e.MarkRunning? { MarkingLeaves(s); }
    else { DecliningLeaves(s, e); }
  }

  lemma DecliningLeaves(s: State, e: Event)
    requires (e.Decline? || (e.Conclude? && !e.saved)) && MayMove(s, e)
    ensures DoMove(s, e) == s.(phase := if e.Decline? then Picking(s.phase.rest) else Resting)
  {
  }

  lemma CatchIsApart(s: State, e: Event, m: Session)
    requires e.Conclude? && MayMove(s, e) && !Concerns(s, e, m)
    ensures Apart(s, DoMove(s, e), m)
  {
    hide DoMove, Live;
    if e.saved {
      CatchRecords(s, e.bare);
      CatchLeavesRows(s, e.bare);
      CatchKeepsRest(s, e.bare);
    } else {
      DecliningLeaves(s, e);
    }
  }

  lemma CatchKeepsRest(s: State, bare: bool)
    requires MayMove(s, Conclude(true, bare))
    ensures DoMove(s, Conclude(true, bare)).orphans == s.orphans && DoMove(s, Conclude(true, bare)).gens == s.gens
  {
    hide Concluded, Verdict;
  }

  lemma MoveIsApart(s: State, e: Event, m: Session)
    requires Moves(e) && MayMove(s, e) && !Concerns(s, e, m)
    ensures Apart(s, DoMove(s, e), m)
  {
    hide DoMove, MayMove, Apart, Concerns;
    if e.Admit? { AdmissionIsApart(s, e, m); }
    else if e.Create? { CreationIsApart(s, e, m); }
    else if e.Conclude? { CatchIsApart(s, e, m); }
    else { SendingIsApart(s, e, m); }
  }

  lemma NoticeIsApart(s: State, e: Event, m: Session)
    requires OwnTurns(s) && MemberInv(s) && ByTurns(e) && MayTurn(s, e) && !Concerns(s, e, m)
    ensures Apart(s, DoTurn(s, e), m)
  {
    hide DoTurn, MayTurn, MemberInv, OwnTurns;
    NoticesLeaveRows(s, e);
    TurnShape(s, e);
    NoticeSparesTurns(s, e, m);
  }

  lemma NoticeSparesTurns(s: State, e: Event, m: Session)
    requires OwnTurns(s) && ByTurns(e) && MayTurn(s, e) && !Concerns(s, e, m)
    ensures forall o :: o in s.ops && s.ops[o].session == m ==> o in DoTurn(s, e).ops && DoTurn(s, e).ops[o] == s.ops[o]
    ensures forall o :: o in DoTurn(s, e).ops && DoTurn(s, e).ops[o].session == m ==> o in s.ops
  {
    hide DoTurn, MayTurn, Live, Final;
    TurnEventsRecord(s, e);
    if e.Complete? { CompletionWrites(s, e.session, e.outcome); }
    OtherNoticesWrite(s, e);
  }

  lemma OtherNoticesWrite(s: State, e: Event)
    requires ByTurns(e) && MayTurn(s, e)
    ensures e.Complete? || e.Halt? || e.Ask? || e.Clear? ==>
              e.session in s.runtimes && s.runtimes[e.session].operation.Some?
    ensures e.Acknowledge? || e.Clear? ==> DoTurn(s, e).ops == s.ops
    ensures e.Repair? && e.id !in s.ops ==> DoTurn(s, e).ops == s.ops
    ensures e.Halt? && s.runtimes[e.session].operation.value !in s.ops ==> DoTurn(s, e).ops == s.ops
  {
  }

  lemma HoldIsApart(s: State, e: Event, m: Session)
    requires MemberInv(s) && ByHolding(e) && MayHold(s, e) && !Concerns(s, e, m)
    ensures Apart(s, DoHold(s, e), m)
  {
    hide DoHold, MayHold, MemberInv;
    if e.Dismiss? { DismissalLeaves(s, e.session, e.gen); } else { HoldingLeaves(s, e); }
  }

  lemma EndIsApart(s: State, e: Event, m: Session)
    requires MemberInv(s) && RowsInv(s) && EndsHolding(e) && MayEnd(s, e) && !Concerns(s, e, m)
    ensures Apart(s, DoEnd(s, e), m)
  {
    hide DoEnd, MayEnd, MemberInv, RowsInv;
    if e.Retired? { RetirementLeaves(s, e.session, e.confirmed); }
    else if e.Dismissed? { DismissedLeaves(s, e.session, e.gen, e.confirmed); }
    else { ReconcilingLeaves(s, e.session); }
  }

  lemma ReconcilingLeaves(s: State, m: Session)
    requires MayEnd(s, Reconcile(m))
    ensures DoEnd(s, Reconcile(m)) == s.(members := s.members - {m})
  {
  }

  lemma StepIsApart(l: Limits, s: State, e: Event, m: Session)
    requires MemberInv(s) && RowsInv(s) && OwnTurns(s) && !Concerns(s, e, m)
    ensures Apart(s, Step(l, s, e), m)
  {
    hide Enabled, Do, Step, MayPick, DoPick, MayMove, DoMove, MayTurn, DoTurn, MayHold, DoHold, MayEnd, DoEnd;
    hide Apart, Concerns, MemberInv, RowsInv, OwnTurns;
    ByKind(l, s, e);
    NothingIsApart(s, m);
    if Enabled(l, s, e) {
      if Picks(e) { PickIsApart(l, s, e, m); }
      else if Moves(e) { MoveIsApart(s, e, m); }
      else if ByTurns(e) { NoticeIsApart(s, e, m); }
      else if ByHolding(e) { HoldIsApart(s, e, m); }
      else if EndsHolding(e) { EndIsApart(s, e, m); }
      else { AllAreConcerned(s, e, m); }
    }
  }

  lemma NothingIsApart(s: State, m: Session)
    ensures Apart(s, s, m)
  {
  }

  lemma AllAreConcerned(s: State, e: Event, m: Session)
    requires ByProcess(e)
    ensures Concerns(s, e, m)
  {
  }

  /** In every run an event touches nothing of any other conversation than its own: neither turns nor
      generation, row, runtime or retirement. */
  lemma ConversationsStayApart(l: Limits, es: seq<Event>, e: Event, m: Session)
    requires !Concerns(Run(l, es), e, m)
    ensures Apart(Run(l, es), Run(l, es + [e]), m)
  {
    hide *;
    RunKeepsMembers(l, es);
    RowsAreCurrent(l, es);
    RunKeepsTurns(l, es);
    RunOneMore(l, es, e);
    StepIsApart(l, Run(l, es), e, m);
  }

  // ----- no row is left behind -----------------------------------------------------------------------------------

  predicate RowsInv(s: State) {
    forall m :: m in s.members ==> Current(s, m, s.members[m].gen)
  }

  /** The generations stand, and rows at most go. */
  predicate RowsStay(s: State, s': State) {
    && s'.gens == s.gens && s'.members.Keys <= s.members.Keys
    && forall m :: m in s'.members ==> s'.members[m].gen == s.members[m].gen
  }

  lemma AdmitKeepsRows(s: State, e: Event)
    requires RowsInv(s) && e.Admit? && MayMove(s, e)
    ensures RowsInv(DoMove(s, e))
  {
    hide Reusable;
  }

  lemma LateKeepsRows(s: State, e: Event)
    requires Moves(e) && MayMove(s, e) && !e.Admit?
    ensures RowsStay(s, DoMove(s, e))
  {
    hide MaySend, Concluded, Verdict, Updated;
  }

  lemma OthersKeepRows(l: Limits, s: State, e: Event)
    requires Enabled(l, s, e) && !Moves(e)
    ensures RowsStay(s, Do(l, s, e))
  {
    hide Enabled, Do, MayPick, DoPick, MayTurn, DoTurn, MayHold, DoHold, MayEnd, DoEnd, MayProcess, DoProcess;
    ByKind(l, s, e);
    if Picks(e) { PickShape(l, s, e); }
    else if ByTurns(e) { TurnShape(s, e); }
    else if ByHolding(e) { HoldShape(s, e); }
    else if EndsHolding(e) { EndShape(s, e); }
    else { ProcessShape(s, e); }
  }

  lemma StepKeepsRows(l: Limits, s: State, e: Event)
    requires RowsInv(s)
    ensures RowsInv(Step(l, s, e))
  {
    hide Enabled, Do, MayMove, DoMove, Moves, Step;
    ByKind(l, s, e);
    if Enabled(l, s, e) {
      if !Moves(e) { OthersKeepRows(l, s, e); }
      else if e.Admit? { AdmitKeepsRows(s, e); }
      else { LateKeepsRows(s, e); }
    }
  }

  /** In every reachable state each row is of its conversation's current generation: the admission sets
      the two together, and nothing else moves a generation. */
  lemma {:induction false} RowsAreCurrent(l: Limits, es: seq<Event>)
    ensures RowsInv(Run(l, es))
    decreases |es|
  {
    hide RowsInv, Step;
    if es == [] {
      StartHasNoRows();
    } else {
      RowsAreCurrent(l, es[..|es| - 1]);
      StepKeepsRows(l, Run(l, es[..|es| - 1]), es[|es| - 1]);
    }
  }

  lemma StartHasNoRows()
    ensures RowsInv(START)
  {
  }

  lemma ReconcileDrops(l: Limits, s: State, session: Session)
    requires RowsInv(s) && session in s.members && session !in s.runtimes && s.phase.Resting?
    ensures Step(l, s, Reconcile(session)) == s.(members := s.members - {session})
  {
  }

  lemma RestartDrops(s: State, absent: set<Session>)
    requires RowsInv(s) && s.phase.Down?
    ensures DoProcess(s, Restart(absent)).members
         == map m | m in s.members && m !in absent :: Member(s.members[m].gen, Unknown)
  {
    hide Live;
  }

  /** So the comparison of generations never saves a row: between two ticks any row without a runtime
      can be reconciled away, */
  lemma ReconcileRemovesRow(l: Limits, es: seq<Event>, session: Session)
    requires Run(l, es).phase.Resting? && session in Run(l, es).members && session !in Run(l, es).runtimes
    ensures Run(l, es + [Reconcile(session)]) == Run(l, es).(members := Run(l, es).members - {session})
  {
    hide *;
    RowsAreCurrent(l, es);
    RunOneMore(l, es, Reconcile(session));
    ReconcileDrops(l, Run(l, es), session);
  }

  /** and the start of a supervisor deletes exactly the rows whose processes it finds absent, and marks
      all others unknown. */
  lemma BootSettlesRows(l: Limits, es: seq<Event>, absent: set<Session>)
    requires Run(l, es).phase.Down?
    ensures var s := Run(l, es);
            Run(l, es + [Restart(absent)]).members
            == map m | m in s.members && m !in absent :: Member(s.members[m].gen, Unknown)
  {
    hide Run, RowsInv, DoProcess, Live;
    RowsAreCurrent(l, es);
    RunOneMore(l, es, Restart(absent));
    RestartDrops(Run(l, es), absent);
  }

  // ----- the verdict of the catch ------------------------------------------------------------------------------

  /** When the loop gives up on a turn it records it as failed although it was sent exactly when the
      turn ran on a runtime that was already there and that has since gone from memory: the catch
      takes the absence of both an attempt and a runtime for proof that nothing was sent. */
  lemma VerdictIsFalseExactly(l: Limits, es: seq<Event>)
    requires Run(l, es).phase.Failing?
    ensures var s := Run(l, es);
            && s.phase.o in s.ops
            && (Verdict(s).Broken? && s.phase.o in s.sent <==>
                  s.phase.o in s.sent && s.phase.reuse && s.ops[s.phase.o].session !in s.runtimes)
  {
    RunKeepsSent(l, es);
  }

  /** What the record of that turn then says: after a catch that was saved, a sent turn stands as failed
      exactly when it had failed before, or the verdict was false and it was not already uncertain. */
  lemma RecordIsFalseExactly(l: Limits, es: seq<Event>, bare: bool)
    requires Run(l, es).phase.Failing?
    ensures var s, s' := Run(l, es), Run(l, es + [Conclude(true, bare)]);
            var o := s.phase.o;
            && o in s.ops && o in s'.ops && s'.sent == s.sent
            && (o in s.sent && s'.ops[o].state.Broken? <==>
                  o in s.sent && (s.ops[o].state.Broken?
                                  || (s.phase.reuse && s.ops[o].session !in s.runtimes && !s.ops[o].state.Uncertain?)))
  {
    hide Run, Concluded, Verdict;
    var s := Run(l, es);
    VerdictIsFalseExactly(l, es);
    RunOneMore(l, es, Conclude(true, bare));
    assert Run(l, es + [Conclude(true, bare)]) == Concluded(s, bare).(phase := Picking(s.phase.rest));
  }

  /** And it happens: a second turn of a conversation is sent, its runtime disconnects, and the error
      of the call is handled before the disconnection is recorded. */
  lemma SentYetFailed(l: Limits) returns (es: seq<Event>)
    requires l.turns >= 1 && l.runtimes >= 1
    ensures 8 in Run(l, es).ops && Run(l, es).ops[8].state.Broken? && 8 in Run(l, es).sent
  {
    es := FirstTurnDone(l);
    var a := State(map[7 := Turn(1, Succeeded)], {}, map[1 := 1], map[1 := Member(1, Idle)], [7], 2,
                   map[1 := Runtime(1, None, false)], {}, map[], Resting);
    RunOneMore(l, es, Submit(8, 1));
    es := es + [Submit(8, 1)];
    var b := a.(ops := a.ops[8 := Turn(1, Queued)]);
    RunOneMore(l, es, Tick([8]));
    es := es + [Tick([8])];
    SecondIsChosen(l, b);
    assert Run(l, es) == b.(phase := Picking([8]));
    RunOneMore(l, es, Choose);
    es := es + [Choose];
    assert [8][1..] == [];
    assert Run(l, es) == b.(phase := Admitting(8, [], 1, true));
    es := SecondIsSent(l, es, b);
  }

  lemma SecondIsSent(l: Limits, before: seq<Event>, b: State) returns (es: seq<Event>)
    requires b == State(map[7 := Turn(1, Succeeded), 8 := Turn(1, Queued)], {}, map[1 := 1], map[1 := Member(1, Idle)],
                        [7], 2, map[1 := Runtime(1, None, false)], {}, map[], Resting)
    requires Run(l, before) == b.(phase := Admitting(8, [], 1, true))
    ensures 8 in Run(l, es).ops && Run(l, es).ops[8].state.Broken? && 8 in Run(l, es).sent
  {
    es := before;
    RunOneMore(l, es, Admit(true, true));
    es := es + [Admit(true, true)];
    var c := State(map[7 := Turn(1, Succeeded), 8 := Turn(1, Dispatching)], {}, map[1 := 1],
                   map[1 := Member(1, Active)],
                   [7], 2, map[1 := Runtime(1, Some(8), false)], {}, map[], Sending(8, [], 1, true));
    assert Run(l, es) == c;
    es := SecondIsLost(l, es, c);
  }

  lemma SecondIsLost(l: Limits, before: seq<Event>, c: State) returns (es: seq<Event>)
    requires c == State(map[7 := Turn(1, Succeeded), 8 := Turn(1, Dispatching)], {}, map[1 := 1],
                        map[1 := Member(1, Active)],
                        [7], 2, map[1 := Runtime(1, Some(8), false)], {}, map[], Sending(8, [], 1, true))
    requires Run(l, before) == c
    ensures 8 in Run(l, es).ops && Run(l, es).ops[8].state.Broken? && 8 in Run(l, es).sent
  {
    es := before;
    RunOneMore(l, es, Send(true, false));
    es := es + [Send(true, false)];
    assert Run(l, es) == c.(sent := [7, 8], phase := Failing(8, [], 1, false, true));
    RunOneMore(l, es, Poison(1));
    es := es + [Poison(1)];
    assert Run(l, es) == c.(sent := [7, 8], phase := Failing(8, [], 1, false, true), runtimes := map[], repairs := {8},
                            orphans := map[(1, 1) := false]);
    LostIsFailed(l, Run(l, es));
    RunOneMore(l, es, Conclude(true, false));
    es := es + [Conclude(true, false)];
    hide Run, Step;
  }

  lemma LostIsFailed(l: Limits, s: State)
    requires s.phase == Failing(8, [], 1, false, true) && 8 in s.ops && s.ops[8] == Turn(1, Dispatching)
    requires s.runtimes == map[]
    ensures var s' := Step(l, s, Conclude(true, false));
            8 in s'.ops && s'.ops[8].state.Broken? && s'.sent == s.sent
  {
  }

  lemma SecondIsChosen(l: Limits, b: State)
    requires l.turns >= 1
    requires b.ops == map[7 := Turn(1, Succeeded), 8 := Turn(1, Queued)]
    requires b.runtimes == map[1 := Runtime(1, None, false)]
    ensures MayChoose(l, b.(phase := Picking([8])), 8)
  {
    assert LiveTurns(b.ops) == {};
  }

  lemma FirstIsChosen(l: Limits, b: State)
    requires l.turns >= 1 && l.runtimes >= 1
    requires b.ops == map[7 := Turn(1, Queued)] && b.runtimes == map[] && b.members == map[]
    ensures MayChoose(l, b, 7)
  {
    assert LiveTurns(b.ops) == {};
  }

  /** The first turn is running and the pass is over. */
  function FirstRunning(): State {
    State(map[7 := Turn(1, Running)], {}, map[1 := 1], map[1 := Member(1, Starting)], [7], 2,
          map[1 := Runtime(1, Some(7), false)], {}, map[], Picking([]))
  }

  lemma FirstTurnDone(l: Limits) returns (es: seq<Event>)
    requires l.turns >= 1 && l.runtimes >= 1
    ensures Run(l, es) == State(map[7 := Turn(1, Succeeded)], {}, map[1 := 1], map[1 := Member(1, Idle)], [7], 2,
                                map[1 := Runtime(1, None, false)], {}, map[], Resting)
  {
    es := FirstTurnSent(l);
    es := FirstTurnEnds(l, es, FirstRunning());
  }

  lemma FirstTurnQueued(l: Limits) returns (es: seq<Event>)
    ensures Run(l, es) == START.(ops := map[7 := Turn(1, Queued)], phase := Resting)
  {
    RunOneMore(l, [], Restart({}));
    es := [] + [Restart({})];
    assert Run(l, es) == START.(phase := Resting);
    RunOneMore(l, es, Submit(7, 1));
    es := es + [Submit(7, 1)];
  }

  lemma FirstTurnSent(l: Limits) returns (es: seq<Event>)
    requires l.turns >= 1 && l.runtimes >= 1
    ensures Run(l, es) == FirstRunning()
  {
    es := FirstTurnQueued(l);
    var a := START.(ops := map[7 := Turn(1, Queued)], phase := Resting);
    RunOneMore(l, es, Tick([7]));
    es := es + [Tick([7])];
    FirstIsChosen(l, a.(phase := Picking([7])));
    assert Run(l, es) == a.(phase := Picking([7]));
    RunOneMore(l, es, Choose);
    es := es + [Choose];
    assert [7][1..] == [];
    assert Run(l, es) == a.(phase := Admitting(7, [], 1, false), next := 2);
    es := FirstTurnRuns(l, es, a);
  }

  lemma FirstTurnRuns(l: Limits, before: seq<Event>, a: State) returns (es: seq<Event>)
    requires a == START.(ops := map[7 := Turn(1, Queued)], phase := Resting)
    requires Run(l, before) == a.(phase := Admitting(7, [], 1, false), next := 2)
    ensures Run(l, es) == FirstRunning()
  {
    es := before;
    RunOneMore(l, es, Admit(true, true));
    es := es + [Admit(true, true)];
    var b := a.(ops := map[7 := Turn(1, Dispatching)], gens := map[1 := 1], members := map[1 := Member(1, Starting)],
                next := 2, phase := Creating(7, [], 1));
    assert Run(l, es) == b;
    RunOneMore(l, es, Create(true, true));
    es := es + [Create(true, true)];
    var c := b.(runtimes := map[1 := Runtime(1, Some(7), false)], phase := Sending(7, [], 1, false));
    assert Run(l, es) == c;
    RunOneMore(l, es, Send(true, true));
    es := es + [Send(true, true)];
    assert Run(l, es) == c.(sent := [7], phase := Marking(7, []));
    RunOneMore(l, es, MarkRunning);
    es := es + [MarkRunning];
    assert Run(l, es) == c.(ops := map[7 := Turn(1, Running)], sent := [7], phase := Picking([]));
  }

  lemma FirstTurnEnds(l: Limits, before: seq<Event>, c: State) returns (es: seq<Event>)
    requires c == FirstRunning() && Run(l, before) == c
    ensures Run(l, es) == State(map[7 := Turn(1, Succeeded)], {}, map[1 := 1], map[1 := Member(1, Idle)], [7], 2,
                                map[1 := Runtime(1, None, false)], {}, map[], Resting)
  {
    es := before;
    RunOneMore(l, es, Complete(1, Succeeded));
    es := es + [Complete(1, Succeeded)];
    var d := c.(ops := map[7 := Turn(1, Succeeded)], members := map[1 := Member(1, Idle)]);
    assert Run(l, es) == d;
    RunOneMore(l, es, Clear(1));
    es := es + [Clear(1)];
    assert Run(l, es) == d.(runtimes := map[1 := Runtime(1, None, false)]);
    RunOneMore(l, es, Skip);
    es := es + [Skip];
  }
}
