/** The dispatch part of `tick` in the order of apps/supervisor/src/main.ts, performing the events of
    TurnDispatch. At every await other steps may fall, or the process may die. */
module DispatchLoop {
  import opened Sets
  import opened TurnDispatch

  /** What an await leaves to the loop. */
  ghost predicate Quiet(s: State, s': State) {
    && s'.phase == s.phase && s'.sent == s.sent && Calmer(s.ops, s'.ops)
    && s'.members.Keys <= s.members.Keys && s'.runtimes.Keys <= s.runtimes.Keys
  }

  lemma OthersAreQuiet(l: Limits, s: State, e: Event)
    requires Enabled(l, s, e) && ByOthers(e)
    ensures Quiet(s, Do(l, s, e))
  {
    hide Enabled, Do, Calmer, ByOthers, ByLoop;
    OthersByKind(e);
    OutsideIsCalm(l, s, e);
    OutsideShape(l, s, e);
    RuntimesOnlyGo(l, s, e);
  }

  lemma RuntimesOnlyGo(l: Limits, s: State, e: Event)
    requires Enabled(l, s, e) && ByOthers(e)
    ensures Do(l, s, e).runtimes.Keys <= s.runtimes.Keys
  {
    hide Enabled, Do, MayTurn, MayHold, MayEnd, DoTurn, DoHold, DoEnd;
    ByKind(l, s, e);
    if ByTurns(e) { TurnShape(s, e); }
    if ByHolding(e) { HoldShape(s, e); }
    if EndsHolding(e) { EndShape(s, e); }
  }

  lemma QuietTwice(a: State, b: State, c: State)
    requires Quiet(a, b) && Quiet(b, c)
    ensures Quiet(a, c)
  {
  }

  /** A turn that was free to go is so after any awaits, unless its runtime left and its row stayed. */
  lemma StaysChosen(l: Limits, a: State, b: State, o: Id)
    requires MayChoose(l, a, o) && MemberInv(a) && |a.members| <= l.runtimes && Quiet(a, b)
    ensures o in b.ops && b.ops[o].session == a.ops[o].session
    ensures b.ops[o].session in b.runtimes || b.ops[o].session !in b.members ==> MayChoose(l, b, o)
  {
    var session := a.ops[o].session;
    CalmerKeeps(a.ops, b.ops);
    StillFree(a, b, o);
    FewerKeys(a.members, b.members);
    if session in a.runtimes && session !in b.members {
      assert session in a.members by { assert Backed(a, session, a.runtimes[session].gen); }
      SubsetIsSmaller(b.members.Keys + {session}, a.members.Keys);
      assert |b.members| == |b.members.Keys| && |a.members| == |a.members.Keys|;
    }
    hide LiveTurns, Calmer, Busy;
  }

  /** A candidate that is passed over or refused only leaves the plan. */
  lemma PassingOver(l: Limits, s: State)
    requires s.phase.Picking? && s.phase.todo != []
    ensures Enabled(l, s, Skip) && Do(l, s, Skip) == s.(phase := Picking(s.phase.todo[1..]))
    ensures Enabled(l, s, Refuse) && Do(l, s, Refuse).sent == s.sent
    ensures Do(l, s, Refuse).phase == Picking(s.phase.todo[1..])
  {
    hide MayMove, MayTurn, MayHold, MayEnd, MayProcess, DoMove, DoTurn, DoHold, DoEnd, DoProcess;
  }

  class Supervisor {
    const l: Limits
    var s: State
    ghost var events: seq<Event>

    ghost predicate Valid()
      reads this
    {
      s == Run(l, events)
    }

    constructor (limits: Limits)
      ensures Valid() && l == limits && events == [] && s.phase.Down?
    {
      l := limits;
      s := START;
      events := [];
    }

    method Perform(e: Event)
      requires Valid() && Enabled(l, s, e)
      modifies this
      ensures Valid() && s == Do(l, old(s), e) && events == old(events) + [e]
    {
      RunOneMore(l, events, e);
      s := Do(l, s, e);
      events := events + [e];
    }

    method Await() returns (died: bool)
      requires Valid() && !s.phase.Down?
      modifies this
      ensures Valid() && old(events) <= events && s.sent == old(s.sent)
      ensures if died then s.phase.Down? else Quiet(old(s), s)
    {
      hide Enabled, Do, Quiet, Valid;
      died := false;
      var moves: nat := *;
      QuietAtOnce(s);
      while moves > 0
        invariant Valid() && old(events) <= events && s.sent == old(s.sent) && Quiet(old(s), s)
      {
        var e: Event := *;
        if ByOthers(e) && Enabled(l, s, e) {
          ghost var before := s;
          OthersAreQuiet(l, s, e);
          OutsideShape(l, s, e);
          Perform(e);
          QuietTwice(old(s), before, s);
        }
        moves := moves - 1;
      }
      died := *;
      if died { Die(); }
    }

    method Die()
      requires Valid()
      modifies this
      ensures Valid() && old(events) <= events && s.sent == old(s.sent) && s.phase.Down?
    {
      Perform(Crash);
    }

    /** A new process: what was active is in doubt, and nothing is sent again. */
    method Boot(absent: set<Session>)
      requires Valid() && s.phase.Down?
      modifies this
      ensures Valid() && old(events) <= events && s.phase.Resting? && s.sent == old(s.sent)
      ensures forall o :: o in s.ops ==> !Live(s.ops[o].state)
      ensures forall o :: o in s.ops && s.ops[o].state.Uncertain? ==>
                o in old(s.ops) && (Live(old(s.ops)[o].state) || old(s.ops)[o].state.Uncertain?)
    {
      Perform(Restart(absent));
    }

    /** `retireSessionRuntime`, from the admission of the retirement to its outcome. */
    method RetireRuntime(session: Session, automatic: bool) returns (died: bool)
      requires Valid() && !s.phase.Down?
      modifies this
      ensures Valid() && old(events) <= events && s.sent == old(s.sent)
      ensures if died then s.phase.Down? else Quiet(old(s), s)
    {
      hide Enabled, Do, Quiet, Valid;
      QuietAtOnce(s);
      if !Enabled(l, s, Retire(session, automatic)) { return false; }
      OthersAreQuiet(l, s, Retire(session, automatic));
      QuietShape(s, Do(l, s, Retire(session, automatic)));
      Perform(Retire(session, automatic));
      ghost var first := s;
      died := Await();
      if died { return; }
      QuietTwice(old(s), first, s);
      var confirmed: bool := *;
      if Enabled(l, s, Retired(session, confirmed)) {
        ghost var before := s;
        OthersAreQuiet(l, s, Retired(session, confirmed));
        QuietShape(s, Do(l, s, Retired(session, confirmed)));
        Perform(Retired(session, confirmed));
        QuietTwice(old(s), before, s);
      }
    }

    /** Idle members that no turn has claimed are retired, in the order found, until there is room. */
    method MakeRoom(order: seq<Session>) returns (died: bool)
      requires Valid() && !s.phase.Down?
      modifies this
      ensures Valid() && old(events) <= events && s.sent == old(s.sent)
      ensures if died then s.phase.Down? else Quiet(old(s), s)
    {
      hide Enabled, Do, Quiet, Valid;
      QuietAtOnce(s);
      var found, k := s.members, 0;
      died := false;
      while k < |order| && |s.members| >= l.runtimes
        invariant Valid() && old(events) <= events && s.sent == old(s.sent) && !died && !s.phase.Down?
        invariant Quiet(old(s), s)
      {
        var m := order[k];
        if m in found && found[m].state.Idle? && m in s.runtimes && s.runtimes[m].operation.None? {
          ghost var before := s;
          died := RetireRuntime(m, true);
          if died { return; }
          QuietTwice(old(s), before, s);
          QuietShape(old(s), s);
        }
        k := k + 1;
      }
    }

    /** The first candidate left: passed over, refused, or taken all the way to its runtime. */
    method DispatchFirst() returns (died: bool)
      requires Valid() && s.phase.Picking? && s.phase.todo != []
      modifies this
      ensures Valid() && old(events) <= events
      ensures if died then s.phase.Down? else s.phase.Resting? || s.phase == Picking(old(s.phase.todo[1..]))
      ensures s.sent == old(s.sent) || s.sent == old(s.sent) + [old(s.phase.todo[0])]
    {
      hide Enabled, Do, Valid, MayChoose, Calmer;
      died := Await();
      if died { return; }
      var chosen: bool;
      died, chosen := Choosing();
      if died || !chosen { return; }
      died := Admission();
      if died { return; }
      if s.phase.Creating? {
        died := Creation();
        if died { return; }
      }
      if s.phase.Sending? {
        died := Sending();
        if died { return; }
      }
      if s.phase.Failing? { died := Catch(); }
    }

    /** The claim of the workspace, the row and the turn, in one transaction. */
    method Admission() returns (died: bool)
      requires Valid() && s.phase.Admitting?
      modifies this
      ensures Valid() && old(events) <= events && s.sent == old(s.sent)
      ensures died ==> s.phase.Down?
      ensures !died ==>
                || s.phase == Picking(old(s.phase.rest))
                || ((s.phase.Creating? || s.phase.Sending? || s.phase.Failing?)
                    && s.phase.o == old(s.phase.o) && s.phase.rest == old(s.phase.rest))
    {
      hide MayPick, MayTurn, MayHold, MayEnd, MayProcess, DoPick, DoTurn, DoHold, DoEnd, DoProcess;
      died := Await();
      if died { return; }
      var busy: bool := *;
      if busy {
        Perform(Decline);
        return;
      }
      AdmittedIsThere();
      var committed: bool := *;
      var replied: bool := *;
      replied := replied && Enabled(l, s, Admit(true, true));
      Perform(Admit(replied || (committed && Enabled(l, s, Admit(true, false))), replied));
      died := Await();
    }

    lemma AdmittedIsThere()
      requires Valid() && s.phase.Admitting?
      ensures s.phase.o in s.ops
    {
      RunKeepsMembers(l, events);
    }

    /** The checks up to the choice of a generation. */
    method Choosing() returns (died: bool, chosen: bool)
      requires Valid() && s.phase.Picking? && s.phase.todo != []
      modifies this
      ensures Valid() && old(events) <= events && s.sent == old(s.sent)
      ensures died ==> s.phase.Down?
      ensures !died && !chosen ==> s.phase == Picking(old(s.phase.todo[1..]))
      ensures !died && chosen ==>
                s.phase.Admitting? && s.phase.o == old(s.phase.todo[0]) && s.phase.rest == old(s.phase.todo[1..])
    {
      hide Enabled, Do;
      died, chosen := false, false;
      PassingOver(l, s);
      var o := s.phase.todo[0];
      TurnIsThere();
      var session := s.ops[o].session;
      var maintenance: bool := *;
      if maintenance || InDoubt(s, session) || (session in s.runtimes && s.runtimes[session].retiring) {
        Perform(Skip);
        return;
      }
      if Busy(s, session) || (session in s.runtimes && s.runtimes[session].operation.Some?)
          || |LiveTurns(s.ops)| >= l.turns {
        Perform(Skip);
        return;
      }
      var revoked: bool := *;
      if revoked {
        Perform(Refuse);
        return;
      }
      if session !in s.runtimes {
        if session in s.members {
          Perform(Skip);
          return;
        }
        ghost var before := s;
        var order: seq<Session> := *;
        died := MakeRoom(order);
        if died { return; }
        CalmerKeeps(before.ops, s.ops);
        StillFree(before, s, o);
        PassingOver(l, s);
        if |s.members| >= l.runtimes {
          Perform(Skip);
          return;
        }
      }
      died, chosen := Settling(o);
    }

    lemma TurnIsThere()
      requires Valid() && s.phase.Picking? && s.phase.todo != []
      ensures s.phase.todo[0] in s.ops
    {
      RunKeepsSent(l, events);
    }

    /** The workspace and the credentials are looked at again, then the generation is taken. */
    method Settling(o: Id) returns (died: bool, chosen: bool)
      requires Valid() && s.phase.Picking? && s.phase.todo != [] && o == s.phase.todo[0] && MayChoose(l, s, o)
      modifies this
      ensures Valid() && old(events) <= events && s.sent == old(s.sent)
      ensures died ==> s.phase.Down?
      ensures !died && !chosen ==> s.phase == Picking(old(s.phase.todo[1..]))
      ensures !died && chosen ==> s.phase.Admitting? && s.phase.o == o && s.phase.rest == old(s.phase.todo[1..])
    {
      ghost var before := s;
      ghost var past := events;
      chosen := false;
      died := Await();
      if died { return; }
      RunKeepsMembers(l, past);
      RunKeepsLimits(l, past);
      StaysChosen(l, before, s, o);
      hide MemberInv, LimitInv;
      var session := s.ops[o].session;
      var unfit: bool := *;
      var changed: bool := *;
      if unfit || (session !in s.runtimes && session in s.members) {
        Perform(Refuse);
      } else if changed && session in s.runtimes {
        if Enabled(l, s, Replace) {
          Perform(Replace);
          chosen := true;
        } else {
          Perform(Skip);
        }
      } else {
        Perform(Choose);
        chosen := true;
      }
    }

    /** Attachments, then the runtime of a conversation that has none. */
    method Creation() returns (died: bool)
      requires Valid() && s.phase.Creating?
      modifies this
      ensures Valid() && old(events) <= events && s.sent == old(s.sent)
      ensures died ==> s.phase.Down?
      ensures !died ==> s.phase.Sending? || s.phase.Failing?
      ensures !died ==> s.phase.o == old(s.phase.o) && s.phase.rest == old(s.phase.rest)
    {
      RunKeepsMembers(l, events);
      var made: bool := *;
      var attempted: bool := *;
      Perform(Create(made, made || attempted));
      died := Await();
    }

    /** The request under the fence, and the record that it runs. */
    method Sending() returns (died: bool)
      requires Valid() && s.phase.Sending?
      modifies this
      ensures Valid() && old(events) <= events
      ensures s.sent == old(s.sent) || s.sent == old(s.sent) + [old(s.phase.o)]
      ensures died ==> s.phase.Down?
      ensures !died ==> s.phase == Picking(old(s.phase.rest)) || (s.phase.Failing? && s.phase.rest == old(s.phase.rest))
    {
      hide MayPick, MayTurn, MayHold, MayEnd, MayProcess, DoPick, DoTurn, DoHold, DoEnd, DoProcess;
      var delivered: bool := *;
      var replied: bool := *;
      replied := replied && MaySend(s);
      Perform(Send(replied || (delivered && MaySend(s)), replied));
      died := Await();
      if !died && s.phase.Marking? { Perform(MarkRunning); }
    }

    /** The catch: the verdict on the turn, then the retirement of a runtime that is still there. */
    method Catch() returns (died: bool)
      requires Valid() && s.phase.Failing?
      modifies this
      ensures Valid() && old(events) <= events && s.sent == old(s.sent)
      ensures if died then s.phase.Down? else s.phase.Resting? || s.phase == Picking(old(s.phase.rest))
    {
      RunKeepsSent(l, events);
      var session := s.ops[s.phase.o].session;
      var saved: bool := *;
      var bare: bool := *;
      Perform(Conclude(saved, bare));
      died := false;
      if saved && session in s.runtimes { died := RetireRuntime(session, false); }
    }

    /** One pass over the queued turns that were found: whatever is sent was among them, nothing was
        sent before or is sent twice, and the limits stand. */
    method Tick(found: seq<Id>) returns (died: bool)
      requires Valid() && Enabled(l, s, TurnDispatch.Tick(found))
      modifies this
      ensures Valid() && old(events) <= events
      ensures if died then s.phase.Down? else s.phase.Resting?
      ensures forall o :: o in s.sent ==> o in old(s.sent) || o in found
      ensures old(s.sent) <= s.sent && Distinct(s.sent)
      ensures |LiveTurns(s.ops)| <= l.turns && OnePerSession(s.ops) && |s.members| <= l.runtimes
    {
      died := false;
      Perform(TurnDispatch.Tick(found));
      while s.phase.Picking? && s.phase.todo != []
        invariant Valid() && old(events) <= events
        invariant if died then s.phase.Down? else s.phase.Resting? || s.phase.Picking?
        invariant s.phase.Picking? ==> forall o :: o in s.phase.todo ==> o in found
        invariant old(s.sent) <= s.sent && forall o :: o in s.sent ==> o in old(s.sent) || o in found
        decreases if s.phase.Picking? then 1 + |s.phase.todo| else 0
      {
        died := DispatchFirst();
      }
      if s.phase.Picking? { Perform(Skip); }
      EachTurnIsSentOnce(l, events);
      LimitsHold(l, events);
    }
  }

  lemma QuietAtOnce(s: State)
    ensures Quiet(s, s)
  {
  }

  lemma QuietShape(a: State, b: State)
    requires Quiet(a, b)
    ensures b.phase == a.phase && b.sent == a.sent
  {
  }
}
