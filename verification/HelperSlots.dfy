/** The four-slot ledger of file helpers (infra/files/slots.py) and the calls that claim, create,
    retire and release (infra/files/launcher.ts). Each operation id is used by one call. */
module HelperSlots {
  import opened Sets

  type Id = nat

  const SLOTS := 4

  datatype Row = Row(id: Id, broker: nat)

  /** One call of `fixedFileHelper`; `Ended` also stands for a call whose broker died. */
  datatype Call =
    | Claiming(broker: nat)
    | Creating(broker: nat)
    | Running(broker: nat)
    | Closing(broker: nat)        // remove the container by its identifier
    | Looking(broker: nat)        // `retireFileHelper`: is there a container of that name?
    | Releasing(broker: nat)      // its absence is confirmed
    | Ended

  datatype State = State(
    rows: seq<Row>,
    live: set<Id>,                // helper containers that exist
    calls: map<Id, Call>,
    doomed: set<Id>,              // ids whose container somebody else has seen absent
    dead: set<nat>)               // brokers that died

  datatype Event =
    | Begin(id: Id, broker: nat)
    | Claim(id: Id)
    | GiveUp(id: Id)              // no slot in time, or the claim's reply was lost
    | Create(id: Id, reported: bool)
    | CreateFails(id: Id)
    | Finish(id: Id)
    | Remove(id: Id, done: bool)
    | Look(id: Id, removed: bool)
    | Release(id: Id)
    | OtherLooks(id: Id, removed: bool)
    | OtherReleases(id: Id)
    | ContainerExits(id: Id)
    | BrokerDies(broker: nat)

  const INITIAL: State := State([], {}, map[], {}, {})

  // ----- the ledger --------------------------------------------------------------------------------

  function Ids(rows: seq<Row>): (ids: set<Id>) {
    if rows == [] then {} else Ids(rows[..|rows| - 1]) + {rows[|rows| - 1].id}
  }

  /** `release`: every row of that id leaves, the others keep their order. */
  function Without(rows: seq<Row>, id: Id): (r: seq<Row>)
    ensures |r| <= |rows|
  {
    if rows == [] then []
    else Without(rows[..|rows| - 1], id) + if rows[|rows| - 1].id == id then [] else [rows[|rows| - 1]]
  }

  lemma IdsMore(rows: seq<Row>, row: Row)
    ensures Ids(rows + [row]) == Ids(rows) + {row.id}
  {
    assert (rows + [row])[..|rows|] == rows;
  }

  lemma {:induction false} WithoutDrops(rows: seq<Row>, id: Id)
    ensures Ids(Without(rows, id)) == Ids(rows) - {id}
    decreases |rows|
  {
    if rows != [] {
      var before, last := rows[..|rows| - 1], rows[|rows| - 1];
      WithoutDrops(before, id);
      IdsMore(Without(before, id), last);
      assert Without(before, id) + [] == Without(before, id);
    }
  }

  lemma {:induction false} IdsAreOfRows(rows: seq<Row>)
    ensures forall x :: x in Ids(rows) <==> exists i :: 0 <= i < |rows| && rows[i].id == x
    decreases |rows|
  {
    if rows != [] {
      var before, last := rows[..|rows| - 1], rows[|rows| - 1];
      IdsAreOfRows(before);
      forall x | x in Ids(before)
        ensures exists i :: 0 <= i < |rows| && rows[i].id == x
      {
        var i :| 0 <= i < |before| && before[i].id == x;
        assert rows[i].id == x;
      }
      forall i | 0 <= i < |rows|
        ensures rows[i].id in Ids(rows)
      {
        if i < |before| { assert before[i].id == rows[i].id; }
      }
      assert rows[|rows| - 1].id == last.id;
    }
  }

  predicate CanClaim(rows: seq<Row>, id: Id) {
    id !in Ids(rows) && |rows| < SLOTS
  }

  // ----- the calls ----------------------------------------------------------------------------------

  predicate At(s: State, id: Id) { id in s.calls && !s.calls[id].Ended? }

  function To(s: State, id: Id, c: Call): (s': State) { s.(calls := s.calls[id := c]) }

  predicate Enabled(s: State, e: Event) {
    match e
    case Begin(id, broker) => id !in s.calls && broker !in s.dead
    case Claim(id) => id in s.calls && s.calls[id].Claiming?
    case GiveUp(id) => id in s.calls && (s.calls[id].Claiming? || s.calls[id].Creating?)
    case Create(id, _) => id in s.calls && s.calls[id].Creating?
    case CreateFails(id) => id in s.calls && s.calls[id].Creating?
    case Finish(id) => id in s.calls && s.calls[id].Running?
    case Remove(id, _) => id in s.calls && s.calls[id].Closing?
    case Look(id, _) => id in s.calls && s.calls[id].Looking?
    case Release(id) => id in s.calls && s.calls[id].Releasing?
    case OtherLooks(id, _) => true
    case OtherReleases(id) => id in s.doomed
    case ContainerExits(id) => id in s.live
    case BrokerDies(broker) => broker !in s.dead
  }

  function Do(s: State, e: Event): (s': State)
    requires Enabled(s, e)
  {
    match e
    case Begin(id, broker) => To(s, id, Claiming(broker))
    case Claim(id) =>
      if CanClaim(s.rows, id)
      then To(s, id, Creating(s.calls[id].broker)).(rows := s.rows + [Row(id, s.calls[id].broker)])
      else s
    case GiveUp(id) => To(s, id, Looking(s.calls[id].broker))
    case Create(id, reported) =>
      To(s, id, if reported then Running(s.calls[id].broker) else Looking(s.calls[id].broker)).(live := s.live + {id})
    case CreateFails(id) => To(s, id, Looking(s.calls[id].broker))
    case Finish(id) => To(s, id, Closing(s.calls[id].broker))
    case Remove(id, done) =>
      To(s, id, Looking(s.calls[id].broker)).(live := if done then s.live - {id} else s.live)
    case Look(id, removed) =>
      if id !in s.live then To(s, id, Releasing(s.calls[id].broker))
      else if removed then To(s, id, Releasing(s.calls[id].broker)).(live := s.live - {id})
      else To(s, id, Ended)
    case Release(id) => To(s, id, Ended).(rows := Without(s.rows, id))
    case OtherLooks(id, removed) =>
      if id !in s.live then s.(doomed := s.doomed + {id})
      else if removed then s.(live := s.live - {id}, doomed := s.doomed + {id})
      else s
    case OtherReleases(id) => s.(rows := Without(s.rows, id), doomed := s.doomed - {id})
    case ContainerExits(id) => s.(live := s.live - {id})
    case BrokerDies(broker) =>
      s.(dead := s.dead + {broker},
         calls := map id | id in s.calls ::
           if !s.calls[id].Ended? && s.calls[id].broker == broker then Ended else s.calls[id])
  }

  function Step(s: State, e: Event): (s': State) {
    if Enabled(s, e) then Do(s, e) else s
  }

  function Run(es: seq<Event>): (s: State)
    decreases |es|
  {
    if es == [] then INITIAL else Step(Run(es[..|es| - 1]), es[|es| - 1])
  }

  lemma RunOneMore(es: seq<Event>, e: Event)
    ensures Run(es + [e]) == Step(Run(es), e)
  {
    assert (es + [e])[..|es|] == es;
  }

  // ----- the ledger alone ---------------------------------------------------------------------------------

  predicate Sound(rows: seq<Row>) {
    |rows| <= SLOTS && forall i, j :: 0 <= i < j < |rows| ==> rows[i].id != rows[j].id
  }

  lemma {:induction false} ReleaseKeepsSound(rows: seq<Row>, id: Id)
    requires Sound(rows)
    ensures Sound(Without(rows, id))
    decreases |rows|
  {
    if rows != [] {
      var before, last := rows[..|rows| - 1], rows[|rows| - 1];
      ReleaseKeepsSound(before, id);
      WithoutDrops(before, id);
      IdsAreOfRows(before);
      IdsAreOfRows(Without(before, id));
      assert last.id !in Ids(before);
      var kept := Without(before, id);
      assert kept + [] == kept;
      assert forall i :: 0 <= i < |kept| ==> kept[i].id in Ids(kept);
    }
  }

  lemma ClaimKeepsSound(rows: seq<Row>, id: Id, broker: nat)
    requires Sound(rows) && CanClaim(rows, id)
    ensures Sound(rows + [Row(id, broker)])
  {
    IdsAreOfRows(rows);
  }

  lemma SoundCount(rows: seq<Row>)
    requires Sound(rows)
    ensures |Ids(rows)| == |rows|
    decreases |rows|
  {
    if rows != [] {
      var before, last := rows[..|rows| - 1], rows[|rows| - 1];
      SoundCount(before);
      IdsAreOfRows(before);
      assert last.id !in Ids(before);
    }
  }

  /** Whatever happens, four rows at most and no id twice. */
  lemma LedgerStaysSound(es: seq<Event>)
    ensures Sound(Run(es).rows)
    decreases |es|
  {
    if es != [] {
      var s, e := Run(es[..|es| - 1]), es[|es| - 1];
      LedgerStaysSound(es[..|es| - 1]);
      if e.Claim? && Enabled(s, e) && CanClaim(s.rows, e.id) { ClaimKeepsSound(s.rows, e.id, s.calls[e.id].broker); }
      if e.Release? || e.OtherReleases? { ReleaseKeepsSound(s.rows, e.id); }
    }
  }

  lemma RowsChange(s: State, e: Event)
    requires Enabled(s, e)
    ensures Ids(Do(s, e).rows) ==
            if e.Claim? && CanClaim(s.rows, e.id) then Ids(s.rows) + {e.id}
            else if e.Release? || e.OtherReleases? then Ids(s.rows) - {e.id}
            else Ids(s.rows)
  {
    if e.Claim? && CanClaim(s.rows, e.id) { IdsMore(s.rows, Row(e.id, s.calls[e.id].broker)); }
    if e.Release? || e.OtherReleases? { WithoutDrops(s.rows, e.id); }
  }

  // ----- every live helper has its row -----------------------------------------------------------------------

  /** The call of that id can no longer create anything. */
  predicate PastCreation(s: State, id: Id) {
    id in s.calls && !s.calls[id].Claiming? && !s.calls[id].Creating?
  }

  /** Somebody looks for a container that its own call has yet to create. */
  predicate Hasty(s: State, e: Event) {
    e.OtherLooks? && !PastCreation(s, e.id)
  }

  predicate Patient(es: seq<Event>)
    decreases |es|
  {
    es == [] || (Patient(es[..|es| - 1]) && !Hasty(Run(es[..|es| - 1]), es[|es| - 1]))
  }

  predicate Inv(s: State) {
    && (forall id :: id in s.live ==> id in Ids(s.rows) && PastCreation(s, id))
    && (forall id :: id in s.calls && s.calls[id].Creating? ==> id in Ids(s.rows))
    && (forall id :: id in s.doomed ==> PastCreation(s, id) && id !in s.live)
    && (forall id :: id in s.calls && s.calls[id].Releasing? ==> id !in s.live)
    && (forall id :: id in Ids(s.rows) ==> id in s.calls && !s.calls[id].Claiming?)
  }

  lemma StepKeepsInv(s: State, e: Event)
    requires Inv(s) && Sound(s.rows) && !Hasty(s, e)
    ensures Inv(Step(s, e))
  {
    hide Ids, Without, Sound;
    if Enabled(s, e) { RowsChange(s, e); }
  }

  lemma PatientKeepsInv(es: seq<Event>)
    requires Patient(es)
    ensures Inv(Run(es))
    decreases |es|
  {
    if es != [] {
      PatientKeepsInv(es[..|es| - 1]);
      LedgerStaysSound(es[..|es| - 1]);
      StepKeepsInv(Run(es[..|es| - 1]), es[|es| - 1]);
    }
  }

  /** Any number of brokers, crashing anywhere: as long as nobody looks for a helper before its own
      call has created it, every live helper has a row, so at most four live at once. */
  lemma LiveHelpersHaveRows(es: seq<Event>)
    requires Patient(es)
    ensures Run(es).live <= Ids(Run(es).rows) && |Run(es).live| <= SLOTS
  {
    PatientKeepsInv(es);
    LedgerStaysSound(es);
    SoundCount(Run(es).rows);
    SubsetIsSmaller(Run(es).live, Ids(Run(es).rows));
  }

  /** The row is gone, and so is what it stood for. */
  predicate Over(s: State, id: Id) {
    PastCreation(s, id) && id !in s.live && id !in Ids(s.rows)
  }

  lemma OverStep(s: State, e: Event, id: Id)
    requires Over(s, id)
    ensures Over(Step(s, e), id)
  {
    hide Ids, Without;
    if Enabled(s, e) { RowsChange(s, e); }
  }

  lemma {:induction false} OverForGood(es: seq<Event>, more: seq<Event>, id: Id)
    requires Over(Run(es), id)
    ensures Over(Run(es + more), id)
    decreases |more|
  {
    if more == [] {
      assert es + more == es;
    } else {
      var most := more[..|more| - 1];
      OverForGood(es, most, id);
      assert (es + more)[..|es + more| - 1] == es + most;
      OverStep(Run(es + most), more[|more| - 1], id);
    }
  }

  /** A row leaves only after its container is absent: the container does not exist when the row
      goes, nothing can create it any more, and neither it nor the row comes back, whatever happens. */
  lemma RowsLeaveAfterContainers(es: seq<Event>, e: Event, more: seq<Event>, id: Id)
    requires Patient(es)
    requires id in Ids(Run(es).rows) && id !in Ids(Run(es + [e]).rows)
    ensures id !in Run(es).live && PastCreation(Run(es), id)
    ensures id !in Run(es + [e] + more).live && id !in Ids(Run(es + [e] + more).rows)
  {
    hide Ids, Without;
    PatientKeepsInv(es);
    RunOneMore(es, e);
    if Enabled(Run(es), e) { RowsChange(Run(es), e); }
    OverForGood(es + [e], more, id);
  }

  // ----- what one hasty look does ----------------------------------------------------------------------------

  /** In every run, hasty or not: what lives was created by its call, and a row means a claim. */
  predicate Grounded(s: State) {
    && (forall id :: id in s.live ==> PastCreation(s, id))
    && (forall id :: id in Ids(s.rows) ==> id in s.calls && !s.calls[id].Claiming?)
    && (forall id :: id in s.calls && !s.calls[id].Ended? ==> s.calls[id].broker !in s.dead)
  }

  lemma StepKeepsGrounded(s: State, e: Event)
    requires Grounded(s)
    ensures Grounded(Step(s, e))
  {
    hide Ids, Without;
    if Enabled(s, e) { RowsChange(s, e); }
  }

  lemma {:induction false} RunKeepsGrounded(es: seq<Event>)
    ensures Grounded(Run(es))
    decreases |es|
  {
    if es == [] {
    } else {
      RunKeepsGrounded(es[..|es| - 1]);
      StepKeepsGrounded(Run(es[..|es| - 1]), es[|es| - 1]);
    }
  }

  /** Nobody is hasty in `more`, after `es`. */
  predicate PatientThen(es: seq<Event>, more: seq<Event>)
    decreases |more|
  {
    more == [] || (PatientThen(es, more[..|more| - 1]) && !Hasty(Run(es + more[..|more| - 1]), more[|more| - 1]))
  }

  /** One more event, which is not a hasty look. */
  lemma ThenOneMore(es: seq<Event>, more: seq<Event>, e: Event)
    requires PatientThen(es, more) && !Hasty(Run(es + more), e)
    ensures PatientThen(es, more + [e]) && Run(es + (more + [e])) == Step(Run(es + more), e)
  {
    assert (more + [e])[..|more|] == more;
    assert es + (more + [e]) == es + more + [e];
    RunOneMore(es + more, e);
  }

  lemma ThenRest(es: seq<Event>, a: seq<Event>, b: seq<Event>)
    requires PatientThen(es, a) && PatientThen(es + a, b)
    ensures PatientThen(es, a + b) && Run(es + (a + b)) == Run(es + a + b)
    decreases |b|
  {
    hide Run, Hasty;
    assert es + (a + b) == es + a + b;
    if b == [] {
      assert a + b == a;
    } else {
      ThenRest(es, a, b[..|b| - 1]);
      assert (a + b)[..|a + b| - 1] == a + b[..|b| - 1];
      assert es + (a + b[..|b| - 1]) == es + a + b[..|b| - 1];
    }
  }

  ghost predicate SameBut(s: State, s': State, x: Id) {
    && s'.dead == s.dead && (forall y :: y != x ==> (y in s'.doomed <==> y in s.doomed))
    && s'.calls.Keys == s.calls.Keys && forall y :: y in s.calls && y != x ==> s'.calls[y] == s.calls[y]
  }

  function StepsLeft(c: Call): (n: nat) {
    match c
    case Creating(_) => 4
    case Running(_) => 4
    case Closing(_) => 3
    case Looking(_) => 2
    case Releasing(_) => 1
    case Claiming(_) => 0
    case Ended => 0
  }

  /** The next step of a call on its way out. */
  function NextStep(c: Call, x: Id): (e: Event)
    requires StepsLeft(c) > 0
  {
    match c
    case Creating(_) => GiveUp(x)
    case Running(_) => Finish(x)
    case Closing(_) => Remove(x, true)
    case Looking(_) => Look(x, true)
    case Releasing(_) => Release(x)
  }

  lemma NextStepMoves(s: State, x: Id)
    requires x in s.calls && StepsLeft(s.calls[x]) > 0
    ensures var s' := Step(s, NextStep(s.calls[x], x));
            && SameBut(s, s', x) && StepsLeft(s'.calls[x]) < StepsLeft(s.calls[x]) && !s'.calls[x].Claiming?
            && s'.rows == (if s.calls[x].Releasing? then Without(s.rows, x) else s.rows)
            && !Hasty(s, NextStep(s.calls[x], x))
  {
    hide Without;
    match s.calls[x]
    case Creating(b) => assert Step(s, GiveUp(x)) == To(s, x, Looking(b));
    case Running(b) => assert Step(s, Finish(x)) == To(s, x, Closing(b));
    case Closing(b) => assert Step(s, Remove(x, true)) == To(s, x, Looking(b)).(live := s.live - {x});
    case Looking(b) => LookMoves(s, x, b);
    case Releasing(b) => ReleaseMoves(s, x, b);
  }

  lemma ReleaseMoves(s: State, x: Id, b: nat)
    requires x in s.calls && s.calls[x] == Releasing(b)
    ensures Step(s, Release(x)) == To(s, x, Ended).(rows := Without(s.rows, x))
  {
    hide Without;
  }

  lemma LookMoves(s: State, x: Id, b: nat)
    requires x in s.calls && s.calls[x] == Looking(b)
    ensures Step(s, Look(x, true)) == To(s, x, Releasing(b)).(live := s.live - {x})
  {
    hide Without;
    assert x !in s.live ==> s.live - {x} == s.live;
  }

  lemma FoundAbsent(s: State, x: Id)
    requires x in s.calls && s.calls[x].Ended?
    ensures var s1 := Step(s, OtherLooks(x, true));
            && !Hasty(s, OtherLooks(x, true)) && !Hasty(s1, OtherReleases(x))
            && Step(s1, OtherReleases(x)).rows == Without(s.rows, x) && SameBut(s, Step(s1, OtherReleases(x)), x)
  {
    hide Without;
    var s1 := Step(s, OtherLooks(x, true));
    assert s1 == s.(live := s.live - {x}, doomed := s.doomed + {x}) by {
      assert x !in s.live ==> s.live - {x} == s.live;
    }
    assert Step(s1, OtherReleases(x)) == s1.(rows := Without(s.rows, x), doomed := s1.doomed - {x});
  }

  /** The call of a row is brought to its end, or somebody finds its container absent, and the row goes. */
  lemma {:induction false} RowEnds(es: seq<Event>, x: Id) returns (more: seq<Event>)
    requires x in Run(es).calls && !Run(es).calls[x].Claiming?
    ensures PatientThen(es, more)
    ensures Run(es + more).rows == Without(Run(es).rows, x) && SameBut(Run(es), Run(es + more), x)
    decreases StepsLeft(Run(es).calls[x])
  {
    hide Without, Step, Hasty, NextStep, Run;
    var c := Run(es).calls[x];
    assert es + [] == es;
    if StepsLeft(c) == 0 {
      FoundAbsent(Run(es), x);
      ThenOneMore(es, [], OtherLooks(x, true));
      more := [] + [OtherLooks(x, true)];
      ThenOneMore(es, more, OtherReleases(x));
      more := more + [OtherReleases(x)];
    } else {
      NextStepMoves(Run(es), x);
      ThenOneMore(es, [], NextStep(c, x));
      var first := [] + [NextStep(c, x)];
      if c.Releasing? {
        more := first;
      } else {
        var rest := RowEnds(es + first, x);
        ThenRest(es, first, rest);
        more := first + rest;
      }
    }
  }

  lemma WithoutIsShorter(rows: seq<Row>, id: Id)
    requires id in Ids(rows)
    ensures |Without(rows, id)| < |rows|
  {
    if rows[|rows| - 1].id != id { WithoutIsShorter(rows[..|rows| - 1], id); }
  }

  /** A broker that is alive. */
  lemma SomeBroker(dead: set<nat>) returns (broker: nat)
    ensures broker !in dead && forall b :: b in dead ==> b < broker
  {
    if dead == {} {
      broker := 0;
    } else {
      var b :| b in dead;
      broker := SomeBroker(dead - {b});
      assert forall x :: x in dead ==> x == b || x in dead - {b};
      broker := if b < broker then broker else b + 1;
    }
  }

  lemma ReleaseThenCreate(s: State, id: Id)
    requires id in s.calls && s.calls[id].Creating? && id in s.doomed
    ensures var s1 := Step(s, OtherReleases(id));
            && !Hasty(s, OtherReleases(id)) && !Hasty(s1, Create(id, true))
            && id in Step(s1, Create(id, true)).live && id !in Ids(Step(s1, Create(id, true)).rows)
  {
    hide Ids, Without;
    WithoutDrops(s.rows, id);
  }

  /** A call that is creating what somebody has already seen absent. */
  lemma CreationUncovers(es: seq<Event>, id: Id) returns (more: seq<Event>)
    requires id in Run(es).calls && Run(es).calls[id].Creating? && id in Run(es).doomed
    ensures PatientThen(es, more)
    ensures id in Run(es + more).live && id !in Ids(Run(es + more).rows)
  {
    hide Ids, Without;
    hide Run, Step, Hasty;
    ReleaseThenCreate(Run(es), id);
    assert es + [] == es;
    ThenOneMore(es, [], OtherReleases(id));
    ThenOneMore(es, [] + [OtherReleases(id)], Create(id, true));
    more := [] + [OtherReleases(id)] + [Create(id, true)];
  }

  /** The same while the call still claims: rows leave until there is room. */
  lemma {:induction false} ClaimUncovers(es: seq<Event>, id: Id) returns (more: seq<Event>)
    requires id in Run(es).calls && Run(es).calls[id].Claiming? && id in Run(es).doomed
    ensures PatientThen(es, more)
    ensures id in Run(es + more).live && id !in Ids(Run(es + more).rows)
    decreases |Run(es).rows|
  {
    hide Without;
    RunKeepsGrounded(es);
    assert es + [] == es;
    if |Run(es).rows| < SLOTS {
      ThenOneMore(es, [], Claim(id));
      var first := [] + [Claim(id)];
      var rest := CreationUncovers(es + first, id);
      ThenRest(es, first, rest);
      more := first + rest;
    } else {
      var last := Run(es).rows[|Run(es).rows| - 1];
      assert last.id in Ids(Run(es).rows);
      var first := RowEnds(es, last.id);
      WithoutIsShorter(Run(es).rows, last.id);
      assert id in Run(es + first).doomed - {last.id} && id in Run(es + first).calls;
      var rest := ClaimUncovers(es + first, id);
      ThenRest(es, first, rest);
      more := first + rest;
    }
  }

  /** Every hasty look, at any point of any run, can be followed by a helper without a row although
      nobody else is hasty: the condition cannot be weakened. */
  lemma HasteUncovers(es: seq<Event>, e: Event) returns (more: seq<Event>)
    requires Hasty(Run(es), e)
    ensures PatientThen(es + [e], more)
    ensures e.id in Run(es + [e] + more).live && e.id !in Ids(Run(es + [e] + more).rows)
  {
    hide Ids, Without;
    var id, after := e.id, es + [e];
    RunKeepsGrounded(es);
    RunOneMore(es, e);
    assert after + [] == after;
    if id !in Run(es).calls {
      var broker := SomeBroker(Run(es).dead);
      ThenOneMore(after, [], Begin(id, broker));
      var first := [] + [Begin(id, broker)];
      var rest := ClaimUncovers(after + first, id);
      ThenRest(after, first, rest);
      more := first + rest;
    } else if Run(es).calls[id].Claiming? {
      more := ClaimUncovers(after, id);
    } else {
      more := CreationUncovers(after, id);
    }
  }

  /** It needs no crash: the dispatcher's watchdog, which retires the helper of its own operation when
      an emergency stop is seen, may look between the claim of the slot and the creation. */
  lemma HasteHappens() returns (es: seq<Event>)
    ensures Patient(es) && Hasty(Run(es), OtherLooks(1, false))
    ensures Run(es).calls == map[1 := Creating(1)] && Run(es).rows == [Row(1, 1)]
  {
    hide Step, Hasty;
    FirstSteps();
    RunOneMore([], Begin(1, 1));
    es := [] + [Begin(1, 1)];
    assert es[..0] == [];
    RunOneMore(es, Claim(1));
    assert Patient(es) && (es + [Claim(1)])[..1] == es;
    es := es + [Claim(1)];
  }

  lemma FirstSteps()
    ensures var claiming := INITIAL.(calls := map[1 := Claiming(1)]);
            var creating := INITIAL.(calls := map[1 := Creating(1)], rows := [Row(1, 1)]);
            && Step(INITIAL, Begin(1, 1)) == claiming && Step(claiming, Claim(1)) == creating
            && !Hasty(INITIAL, Begin(1, 1)) && !Hasty(claiming, Claim(1)) && Hasty(creating, OtherLooks(1, false))
  {
    assert INITIAL.calls[1 := Claiming(1)] == map[1 := Claiming(1)];
  }

  // ----- the programs ------------------------------------------------------------------------------------------

  datatype Answer = Answer(claimed: bool, stale: seq<Id>)

  /** slots.py: every command runs alone, under the file lock. */
  class Ledger {
    var rows: seq<Row>

    constructor ()
      ensures rows == [] && Sound(rows)
    {
      rows := [];
    }

    /** `aged` says which rows are old enough, `gone` which processes are gone. */
    method Claim(id: Id, broker: nat, aged: set<Id>, gone: set<nat>) returns (r: Answer)
      requires Sound(rows)
      modifies this
      ensures Sound(rows)
      ensures r.claimed <==> CanClaim(old(rows), id)
      ensures rows == if r.claimed then old(rows) + [Row(id, broker)] else old(rows)
      ensures forall x :: x in r.stale ==> exists row :: row in rows && row.id == x && x in aged && row.broker in gone
      ensures r.stale != [] ==> id !in Ids(rows) && |rows| == SLOTS
    {
      var i := 0;
      while i < |rows|
        invariant 0 <= i <= |rows| && rows == old(rows)
        invariant forall j :: 0 <= j < i ==> rows[j].id != id
      {
        if rows[i].id == id {
          IdsAreOfRows(rows);
          return Answer(false, []);
        }
        i := i + 1;
      }
      IdsAreOfRows(rows);
      if |rows| < SLOTS {
        ClaimKeepsSound(rows, id, broker);
        rows := rows + [Row(id, broker)];
        return Answer(true, []);
      }
      var stale: seq<Id> := [];
      i := 0;
      while i < |rows|
        invariant 0 <= i <= |rows| && rows == old(rows)
        invariant forall x :: x in stale ==> exists row :: row in rows && row.id == x && x in aged && row.broker in gone
      {
        if rows[i].id in aged && rows[i].broker in gone {
          assert rows[i] in rows;
          stale := stale + [rows[i].id];
        }
        i := i + 1;
      }
      return Answer(false, stale);
    }

    method Release(id: Id) returns (released: bool)
      requires Sound(rows)
      modifies this
      ensures Sound(rows) && rows == Without(old(rows), id)
      ensures Ids(rows) == Ids(old(rows)) - {id}
      ensures released <==> id in Ids(old(rows))
    {
      ReleaseKeepsSound(rows, id);
      WithoutDrops(rows, id);
      ghost var before := rows;
      var kept: seq<Row> := [];
      var i := 0;
      while i < |rows|
        invariant 0 <= i <= |rows| && rows == before
        invariant kept == Without(rows[..i], id)
      {
        assert rows[..i + 1][..i] == rows[..i];
        if rows[i].id != id { kept := kept + [rows[i]]; }
        i := i + 1;
      }
      assert rows[..|rows|] == rows;
      SoundCount(rows);
      SoundCount(kept);
      released := |kept| != |rows|;
      assert id in Ids(rows) ==> |Ids(rows) - {id}| == |Ids(rows)| - 1;
      assert id !in Ids(rows) ==> Ids(rows) - {id} == Ids(rows);
      rows := kept;
    }
  }

  /** An event that is not a move of this call or the death of its broker. */
  predicate Foreign(e: Event, id: Id, broker: nat) {
    match e
    case BrokerDies(b) => b != broker
    case OtherLooks(_, _) => true
    case OtherReleases(_) => true
    case ContainerExits(_) => true
    case Begin(x, _) => x != id
    case Claim(x) => x != id
    case GiveUp(x) => x != id
    case Create(x, _) => x != id
    case CreateFails(x) => x != id
    case Finish(x) => x != id
    case Remove(x, _) => x != id
    case Look(x, _) => x != id
    case Release(x) => x != id
  }

  /** `fixedFileHelper` and `retireFileHelper` as sequences of events, others moving in between. */
  class Host {
    var s: State
    ghost var events: seq<Event>

    ghost predicate Valid()
      reads this
    {
      s == Run(events)
    }

    constructor ()
      ensures Valid() && events == []
    {
      s := INITIAL;
      events := [];
    }

    method Perform(e: Event)
      requires Valid() && Enabled(s, e)
      modifies this
      ensures Valid() && s == Do(old(s), e) && events == old(events) + [e]
    {
      s := Do(s, e);
      events := events + [e];
      RunOneMore(old(events), e);
    }

    /** Other calls, other brokers and containers move; this call's broker may die. */
    method Await(id: Id) returns (died: bool)
      requires Valid() && At(s, id)
      modifies this
      ensures Valid() && old(events) <= events
      ensures if died then id in s.calls && s.calls[id].Ended? else At(s, id) && s.calls[id] == old(s.calls[id])
    {
      var moves: nat := *;
      while moves > 0
        invariant Valid() && old(events) <= events
        invariant At(s, id) && s.calls[id] == old(s.calls[id])
      {
        var e: Event := *;
        if Enabled(s, e) && Foreign(e, id, s.calls[id].broker) { Perform(e); }
        moves := moves - 1;
      }
      died := *;
      if died && s.calls[id].broker in s.dead { died := false; }
      if died { Perform(BrokerDies(s.calls[id].broker)); }
    }

    /** Claim until there is room or the time is up. */
    method Permit(id: Id) returns (died: bool)
      requires Valid() && At(s, id) && s.calls[id].Claiming?
      modifies this
      ensures Valid() && old(events) <= events
      ensures if died then id in s.calls && s.calls[id].Ended?
              else At(s, id) && (s.calls[id].Creating? || s.calls[id].Looking?)
    {
      var tries: nat := *;
      died := false;
      while tries > 0 && At(s, id) && s.calls[id].Claiming?
        invariant Valid() && old(events) <= events && !died
        invariant At(s, id) && (s.calls[id].Claiming? || s.calls[id].Creating?)
        decreases tries
      {
        Perform(Claim(id));
        died := Await(id);
        if died { return; }
        tries := tries - 1;
      }
      if s.calls[id].Claiming? { Perform(GiveUp(id)); }
    }

    /** `retireFileHelper` at the end of every call: see its container gone, then release. */
    method Retire(id: Id) returns (died: bool)
      requires Valid() && At(s, id) && s.calls[id].Looking?
      modifies this
      ensures Valid() && old(events) <= events && id in s.calls && s.calls[id].Ended?
    {
      var removed: bool := *;
      Perform(Look(id, removed));
      if s.calls[id].Ended? { return false; }
      died := Await(id);
      if !died { Perform(Release(id)); }
    }

    /** One call from claim to retirement. The ledger stays sound, and as long as nobody was hasty no
        helper lives without a row. */
    method FixedFileHelper(id: Id, broker: nat)
      requires Valid() && Enabled(s, Begin(id, broker))
      modifies this
      ensures Valid() && old(events) <= events && id in s.calls && s.calls[id].Ended?
      ensures Sound(s.rows)
      ensures Patient(events) ==> s.live <= Ids(s.rows) && |s.live| <= SLOTS
    {
      HelperCall(id, broker);
      LedgerStaysSound(events);
      if Patient(events) { LiveHelpersHaveRows(events); }
    }

    method HelperCall(id: Id, broker: nat)
      requires Valid() && Enabled(s, Begin(id, broker))
      modifies this
      ensures Valid() && old(events) <= events && id in s.calls && s.calls[id].Ended?
    {
      Perform(Begin(id, broker));
      var died := Permit(id);
      if died { return; }
      if s.calls[id].Creating? {
        died := Creation(id);
        if died { return; }
      }
      if s.calls[id].Running? {
        died := Running(id);
        if died { return; }
      }
      died := Retire(id);
    }

    /** The container is made, or not. */
    method Creation(id: Id) returns (died: bool)
      requires Valid() && At(s, id) && s.calls[id].Creating?
      modifies this
      ensures Valid() && old(events) <= events
      ensures if died then id in s.calls && s.calls[id].Ended?
              else At(s, id) && (s.calls[id].Running? || s.calls[id].Looking?)
    {
      var made: bool := *;
      var reported: bool := *;
      if made { Perform(Create(id, reported)); } else { Perform(CreateFails(id)); }
      died := Await(id);
    }

    /** The helper's conversation, to its end, and the removal of its container. */
    method Running(id: Id) returns (died: bool)
      requires Valid() && At(s, id) && s.calls[id].Running?
      modifies this
      ensures Valid() && old(events) <= events
      ensures if died then id in s.calls && s.calls[id].Ended? else At(s, id) && s.calls[id].Looking?
    {
      Perform(Finish(id));
      died := Await(id);
      if died { return; }
      var done: bool := *;
      Perform(Remove(id, done));
      died := Await(id);
    }
  }
}
