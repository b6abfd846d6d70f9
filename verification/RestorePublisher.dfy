/** `_publish` in the order of infra/deploy/publish.py, performing the steps of RestorePublication
    one by one; between any two of them the process may die. */
module RestorePublisher {
  import opened RestoreCopy
  import opened RestorePublication

  /** Where a step may lead; `Idle` is an error. */
  predicate Follows(n: nat, i: nat, phase: Phase, pc: Pc) {
    || pc.Idle?
    || (pc.At? && pc.i == i && match phase
        case Planning => pc.phase.Claiming?
        case Claiming => pc.phase.FlushingClaim? || pc.phase.Inspecting?
        case FlushingClaim => pc.phase.Inspecting?
        case Inspecting => pc.phase.Emptying? || pc.phase.Comparing?
        case Emptying => pc.phase.Emptying? || pc.phase.Copying?
        case Copying(k) => pc.phase == Copying(k + 1) || pc.phase.Settling?
        case Settling => pc.phase.Moving?
        case Moving => pc.phase.FlushingTarget?
        case FlushingTarget => pc.phase.Comparing?
        case Comparing => pc.phase.Sealing?
        case Sealing => pc.phase.Recording?
        case Recording => false)
    || (phase.Recording? && pc == if i + 1 < n then At(i + 1, Planning) else Finished)
  }

  lemma MoveFollows(units: seq<Unit>, s: State, kept: set<Path>, slot: Option<nat>)
    requires PcKnows(units, s)
    ensures Follows(|units|, s.pc.i, s.pc.phase, Advance(units, s, kept, slot).pc)
  {
  }

  class Publisher {
    const units: seq<Unit>
    ghost const start: Files
    var s: State
    ghost var events: seq<Event>

    ghost predicate Valid()
      reads this
    {
      World(units, start) && s == Run(units, start, events)
    }

    constructor (units: seq<Unit>, start: Files)
      requires World(units, start)
      ensures Valid() && events == [] && this.units == units && this.start == start
    {
      this.units := units;
      this.start := start;
      s := Initial(start);
      events := [];
    }

    method Perform(e: Event)
      requires Valid() && Enabled(units, s, e)
      modifies this
      ensures Valid() && s == Do(units, old(s), e) && events == old(events) + [e]
    {
      s := Do(units, s, e);
      events := events + [e];
      assert events[..|events| - 1] == old(events);
    }

    /** The first name in the listing of a pool. */
    method ListPool(root: nat) returns (slot: Option<nat>)
      ensures FirstSlot(s.files, root, slot)
    {
      slot := None;
      var rest := s.files.Keys;
      while rest != {}
        invariant rest <= s.files.Keys
        invariant slot.Some? ==> Slot(root, slot.value) in s.files
        invariant forall p :: p in s.files.Keys - rest && p.Slot? && p.root == root ==>
                    slot.Some? && slot.value <= p.number
        decreases |rest|
      {
        var p :| p in rest;
        rest := rest - {p};
        if p.Slot? && p.root == root && (slot.None? || p.number < slot.value) { slot := Some(p.number); }
      }
    }

    /** One step of the program, or its death just before it. */
    method Proceed(kept: set<Path>) returns (died: bool)
      requires Valid() && s.pc.At?
      modifies this
      ensures Valid() && old(events) <= events
      ensures if died then s.pc.Idle? else Follows(|units|, old(s.pc).i, old(s.pc).phase, s.pc)
    {
      RunKeepsInv(units, start, events);
      PcIsMovable(units, start, s);
      died := *;
      if died {
        Perform(Crash);
      } else {
        var slot := ListPool(units[s.pc.i].root);
        MoveFollows(units, s, kept, slot);
        Perform(Move(kept, slot));
      }
    }

    /** Remove what the claim holds, child by child, each perhaps in several strokes. */
    method Empty(i: nat) returns (died: bool)
      requires Valid() && s.pc == At(i, Emptying)
      modifies this
      ensures Valid() && old(events) <= events
      ensures died || s.pc.Idle? || (s.pc.At? && s.pc.i == i && s.pc.phase.Copying?)
      ensures died ==> s.pc.Idle?
    {
      died := false;
      var strokes: nat := *;
      while s.pc == At(i, Emptying) && strokes > 0
        invariant Valid() && old(events) <= events
        invariant s.pc.Idle? || (s.pc.At? && s.pc.i == i && (s.pc.phase.Emptying? || s.pc.phase.Copying?))
        decreases strokes
      {
        var kept: set<Path> := *;
        died := Proceed(kept);
        if died { return; }
        strokes := strokes - 1;
      }
      if s.pc == At(i, Emptying) { died := Clear(i); }
    }

    method Clear(i: nat) returns (died: bool)
      requires Valid() && s.pc == At(i, Emptying)
      modifies this
      ensures Valid() && old(events) <= events
      ensures died ==> s.pc.Idle?
      ensures died || s.pc.Idle? || (s.pc.At? && s.pc.i == i && s.pc.phase.Copying?)
    {
      RunKeepsInv(units, start, events);
      PcIsMovable(units, start, s);
      var content := s.files[Claim(i)].content;
      if content != map[] {
        Perform(Move({}, None));
        assert s.files[Claim(i)].content.Keys == {};
      }
      Perform(Move({}, None));
      died := false;
    }

    /** Copy path after path; an error leaves the claim to be emptied by the next run. */
    method CopyAll(i: nat) returns (died: bool)
      requires Valid() && s.pc.At? && s.pc.i == i && s.pc.phase.Copying?
      modifies this
      ensures Valid() && old(events) <= events
      ensures died ==> s.pc.Idle?
      ensures died || s.pc.Idle? || s.pc == At(i, Settling)
    {
      died := false;
      RunKeepsInv(units, start, events);
      while s.pc.At? && s.pc.phase.Copying?
        invariant Valid() && old(events) <= events
        invariant s.pc.Idle? || (s.pc.At? && s.pc.i == i && i < |units|
                                 && (s.pc.phase.Copying? || s.pc.phase.Settling?))
        invariant s.pc.At? && s.pc.phase.Copying? ==> s.pc.phase.k <= |units[i].order|
        decreases if s.pc.At? && s.pc.phase.Copying? then |units[i].order| - s.pc.phase.k + 1 else 0
      {
        died := Proceed({});
        if died { return; }
        RunKeepsInv(units, start, events);
      }
    }

    /** One project; ends at the next one, at the end, or with an error. */
    method PublishProject(i: nat) returns (died: bool)
      requires Valid() && s.pc == At(i, Planning)
      modifies this
      ensures Valid() && old(events) <= events
      ensures s.pc.Idle? || s.pc == if i + 1 < |units| then At(i + 1, Planning) else Finished
    {
      died := Proceed({});
      if s.pc.Idle? { return; }
      died := Proceed({});
      if s.pc.Idle? { return; }
      if s.pc.phase.FlushingClaim? {
        died := Proceed({});
        if s.pc.Idle? { return; }
      }
      died := Proceed({});
      if s.pc.Idle? { return; }
      if s.pc.phase.Emptying? {
        died := FillAndMove(i);
        if s.pc.Idle? { return; }
      }
      died := Proceed({});
      if s.pc.Idle? { return; }
      died := Proceed({});
      if s.pc.Idle? { return; }
      died := Proceed({});
    }

    method FillAndMove(i: nat) returns (died: bool)
      requires Valid() && s.pc == At(i, Emptying)
      modifies this
      ensures Valid() && old(events) <= events
      ensures s.pc.Idle? || s.pc == At(i, Comparing)
    {
      died := Empty(i);
      if s.pc.Idle? { return; }
      died := CopyAll(i);
      if s.pc.Idle? { return; }
      died := Proceed({});
      if s.pc.Idle? { return; }
      died := Proceed({});
      if s.pc.Idle? { return; }
      died := Proceed({});
    }

    /** A run that returns has published every project, each equal to its inventory. */
    method Publish() returns (finished: bool)
      requires Valid() && s.pc.Idle?
      modifies this
      ensures Valid() && old(events) <= events
      ensures finished ==> forall i :: 0 <= i < |units| ==>
                && i in s.journal && s.journal[i].published
                && Target(i) in s.files && Holds(units[i], s.files[Target(i)].content)
    {
      Perform(Start);
      var i := 0;
      while i < |units|
        invariant Valid() && old(events) <= events
        invariant i <= |units|
        invariant s.pc == if i < |units| then At(i, Planning) else Finished
      {
        var died := PublishProject(i);
        if s.pc.Idle? { return false; }
        i := i + 1;
      }
      finished := true;
      RunKeepsInv(units, start, events);
      forall j | 0 <= j < |units|
        ensures Target(j) in s.files && Holds(units[j], s.files[Target(j)].content)
      {
        TargetsAreWhole(units, start, events, j);
      }
    }
  }
}
