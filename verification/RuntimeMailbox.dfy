/** The queue of runtime notifications (apps/supervisor/src/runtime-mailbox.ts). The promise chain
    is a list of unfinished entries of which only the first may run. */
module RuntimeMailbox {

  type Id = nat

  datatype Entry = Entry(id: Id, size: nat)

  /** Where the first entry stands: not begun, being applied, failed, or about to be counted out. */
  datatype Stage = Waiting | Applying | Failed | Finishing

  datatype State = State(
    queue: seq<Entry>,
    stage: Stage,
    count: nat,
    bytes: nat,
    poisoned: bool,
    accepted: seq<Id>,      // in the order of `enqueue`
    started: seq<Id>,       // in the order in which `apply` was called
    terminals: nat)         // calls of the terminal callback

  datatype Event =
    | Enqueue(id: Id, size: nat)
    | Begin                 // the first entry's turn: apply it, or pass if poisoned
    | Applied(ok: bool)
    | Catch                 // the failure poisons the runtime
    | Finally
    | Poison                // by somebody else, at any time

  const INITIAL: State := State([], Waiting, 0, 0, false, [], [], 0)

  function Poisoned(s: State): (s': State) {
    if s.poisoned then s else s.(poisoned := true, terminals := s.terminals + 1)
  }

  predicate Enabled(s: State, e: Event) {
    match e
    case Enqueue(id, _) => id !in s.accepted
    case Begin => s.queue != [] && s.stage.Waiting?
    case Applied(_) => s.stage.Applying?
    case Catch => s.stage.Failed?
    case Finally => s.queue != [] && s.stage.Finishing?
    case Poison => true
  }

  function Do(maxCount: nat, maxBytes: nat, s: State, e: Event): (s': State)
    requires Enabled(s, e)
  {
    match e
    case Enqueue(id, size) =>
      if s.poisoned then s
      else if s.count >= maxCount || s.bytes + size > maxBytes then Poisoned(s)
      else s.(queue := s.queue + [Entry(id, size)], count := s.count + 1, bytes := s.bytes + size,
              accepted := s.accepted + [id])
    case Begin =>
      if s.poisoned then s.(stage := Finishing) else s.(stage := Applying, started := s.started + [s.queue[0].id])
    case Applied(ok) => s.(stage := if ok then Finishing else Failed)
    case Catch => Poisoned(s).(stage := Finishing)
    case Finally =>
      s.(queue := s.queue[1..], stage := Waiting,
         count := if s.count > 0 then s.count - 1 else 0,
         bytes := if s.bytes >= s.queue[0].size then s.bytes - s.queue[0].size else 0)
    case Poison => Poisoned(s)
  }

  function Step(maxCount: nat, maxBytes: nat, s: State, e: Event): (s': State) {
    if Enabled(s, e) then Do(maxCount, maxBytes, s, e) else s
  }

  function Run(maxCount: nat, maxBytes: nat, es: seq<Event>): (s: State)
    decreases |es|
  {
    if es == [] then INITIAL
    else Step(maxCount, maxBytes, Run(maxCount, maxBytes, es[..|es| - 1]), es[|es| - 1])
  }

  /** What each event comes to. Work is taken unless the mailbox is poisoned, and too much of it poisons the
      mailbox; the first entry is applied unless the mailbox is poisoned by then, a failure poisons it, and
      the entry is counted out either way. The terminal callback is called at the first poisoning. */
  lemma EventLeaves(maxCount: nat, maxBytes: nat, s: State, e: Event)
    requires Enabled(s, e)
    ensures var s' := Do(maxCount, maxBytes, s, e);
            var poisoned := s.(poisoned := true, terminals := if s.poisoned then s.terminals else s.terminals + 1);
            match e
            case Enqueue(id, size) =>
              if s.poisoned then s' == s
              else if s.count + 1 > maxCount || s.bytes + size > maxBytes then s' == poisoned
              else s' == s.(queue := s.queue + [Entry(id, size)], count := s.count + 1, bytes := s.bytes + size,
                            accepted := s.accepted + [id])
            case Begin =>
              if s.poisoned then s' == s.(stage := Finishing)
              else s' == s.(stage := Applying, started := s.started + [s.queue[0].id])
            case Applied(ok) => s' == s.(stage := if ok then Finishing else Failed)
            case Catch => s' == poisoned.(stage := Finishing)
            case Finally =>
              && s' == s.(queue := s.queue[1..], stage := Waiting, count := s'.count, bytes := s'.bytes)
              && (s.count >= 1 ==> s'.count == s.count - 1)
              && (s.bytes >= s.queue[0].size ==> s'.bytes == s.bytes - s.queue[0].size)
            case Poison => s' == poisoned
  {
  }

  function Size(queue: seq<Entry>): (n: nat) {
    if queue == [] then 0 else queue[0].size + Size(queue[1..])
  }

  lemma SizeMore(queue: seq<Entry>, e: Entry)
    ensures Size(queue + [e]) == Size(queue) + e.size
    decreases |queue|
  {
    if queue != [] {
      SizeMore(queue[1..], e);
      assert (queue + [e])[1..] == queue[1..] + [e];
    }
  }

  function IdsOf(queue: seq<Entry>): (ids: seq<Id>)
    ensures |ids| == |queue| && forall i :: 0 <= i < |queue| ==> ids[i] == queue[i].id
  {
    seq(|queue|, i requires 0 <= i < |queue| => queue[i].id)
  }

  /** The queue is the tail of what was accepted; what was started is a head of it. */
  predicate Inv(maxCount: nat, maxBytes: nat, s: State) {
    && s.count == |s.queue| <= maxCount && s.bytes == Size(s.queue) <= maxBytes
    && s.terminals == (if s.poisoned then 1 else 0)
    && |s.queue| <= |s.accepted| && s.accepted[|s.accepted| - |s.queue|..] == IdsOf(s.queue)
    && s.started <= s.accepted
    && (s.queue == [] ==> s.stage.Waiting?)
    && (!s.poisoned ==> |s.started| == |s.accepted| - |s.queue| + if s.stage.Waiting? then 0 else 1)
    && (s.stage.Failed? || s.stage.Applying? ==> |s.started| == |s.accepted| - |s.queue| + 1)
  }

  lemma StepKeepsInv(maxCount: nat, maxBytes: nat, s: State, e: Event)
    requires Inv(maxCount, maxBytes, s)
    ensures Inv(maxCount, maxBytes, Step(maxCount, maxBytes, s, e))
    ensures s.poisoned ==>
              Step(maxCount, maxBytes, s, e).poisoned && Step(maxCount, maxBytes, s, e).started == s.started
    ensures s.accepted <= Step(maxCount, maxBytes, s, e).accepted && s.started <= Step(maxCount, maxBytes, s, e).started
  {
    hide Inv, Do;
    if Enabled(s, e) {
      if e.Enqueue? { EnqueueKeepsInv(maxCount, maxBytes, s, e); }
      else if e.Begin? { BeginKeepsInv(maxCount, maxBytes, s, e); }
      else if e.Finally? { FinallyKeepsInv(maxCount, maxBytes, s, e); }
      else { OthersKeepInv(maxCount, maxBytes, s, e); }
    }
  }

  /** Nothing accepted or begun is forgotten, and nothing is begun after the poisoning. */
  predicate Extends(s: State, s': State) {
    && (s.poisoned ==> s'.poisoned && s'.started == s.started)
    && s.accepted <= s'.accepted && s.started <= s'.started
  }

  lemma EnqueueKeepsInv(maxCount: nat, maxBytes: nat, s: State, e: Event)
    requires Inv(maxCount, maxBytes, s) && Enabled(s, e) && e.Enqueue?
    ensures Inv(maxCount, maxBytes, Do(maxCount, maxBytes, s, e))
    ensures Extends(s, Do(maxCount, maxBytes, s, e))
  {
    hide Size;
    SizeMore(s.queue, Entry(e.id, e.size));
    assert IdsOf(s.queue + [Entry(e.id, e.size)]) == IdsOf(s.queue) + [e.id];
    SuffixMore(s.accepted, |s.accepted| - |s.queue|, e.id);
  }

  lemma SuffixMore(ids: seq<Id>, k: nat, id: Id)
    requires k <= |ids|
    ensures (ids + [id])[k..] == ids[k..] + [id]
  {
  }

  lemma BeginKeepsInv(maxCount: nat, maxBytes: nat, s: State, e: Event)
    requires Inv(maxCount, maxBytes, s) && Enabled(s, e) && e.Begin?
    ensures Inv(maxCount, maxBytes, Do(maxCount, maxBytes, s, e))
    ensures Extends(s, Do(maxCount, maxBytes, s, e))
  {
    hide Size;
    assert s.accepted[|s.accepted| - |s.queue|] == IdsOf(s.queue)[0];
  }

  lemma FinallyKeepsInv(maxCount: nat, maxBytes: nat, s: State, e: Event)
    requires Inv(maxCount, maxBytes, s) && Enabled(s, e) && e.Finally?
    ensures Inv(maxCount, maxBytes, Do(maxCount, maxBytes, s, e))
    ensures Extends(s, Do(maxCount, maxBytes, s, e))
  {
    assert IdsOf(s.queue)[1..] == IdsOf(s.queue[1..]);
  }

  lemma OthersKeepInv(maxCount: nat, maxBytes: nat, s: State, e: Event)
    requires Inv(maxCount, maxBytes, s) && Enabled(s, e) && (e.Applied? || e.Catch? || e.Poison?)
    ensures Inv(maxCount, maxBytes, Do(maxCount, maxBytes, s, e))
    ensures Extends(s, Do(maxCount, maxBytes, s, e))
  {
    hide Size, IdsOf;
  }

  lemma {:induction false} RunKeepsInv(maxCount: nat, maxBytes: nat, es: seq<Event>)
    ensures Inv(maxCount, maxBytes, Run(maxCount, maxBytes, es))
    decreases |es|
  {
    if es != [] {
      RunKeepsInv(maxCount, maxBytes, es[..|es| - 1]);
      StepKeepsInv(maxCount, maxBytes, Run(maxCount, maxBytes, es[..|es| - 1]), es[|es| - 1]);
    }
  }

  /** At every moment the counters are those of the unfinished entries and within their limits; work
      was begun in the order of arrival, none skipped before the poisoning; and the terminal callback
      has fired once if the runtime is poisoned, otherwise never. */
  lemma CountersAreTrue(maxCount: nat, maxBytes: nat, es: seq<Event>)
    ensures var s := Run(maxCount, maxBytes, es);
            && s.count == |s.queue| <= maxCount && s.bytes == Size(s.queue) <= maxBytes
            && s.started <= s.accepted
            && s.terminals == if s.poisoned then 1 else 0
  {
    RunKeepsInv(maxCount, maxBytes, es);
  }

  /** After the poisoning nothing is begun and nothing is accepted, whatever still happens. */
  lemma {:induction false} PoisonIsFinal(maxCount: nat, maxBytes: nat, es: seq<Event>, more: seq<Event>)
    requires Run(maxCount, maxBytes, es).poisoned
    ensures var s, s' := Run(maxCount, maxBytes, es), Run(maxCount, maxBytes, es + more);
            s'.poisoned && s'.started == s.started && s'.accepted == s.accepted
    decreases |more|
  {
    if more == [] {
      assert es + more == es;
    } else {
      var most := more[..|more| - 1];
      PoisonIsFinal(maxCount, maxBytes, es, most);
      RunKeepsInv(maxCount, maxBytes, es + most);
      assert (es + more)[..|es + more| - 1] == es + most;
      StepKeepsInv(maxCount, maxBytes, Run(maxCount, maxBytes, es + most), more[|more| - 1]);
    }
  }

  /** An unpoisoned queue that has drained has begun everything it accepted, once and in order. */
  lemma DrainedMeansAllBegun(maxCount: nat, maxBytes: nat, es: seq<Event>)
    requires !Run(maxCount, maxBytes, es).poisoned && Run(maxCount, maxBytes, es).queue == []
    ensures Run(maxCount, maxBytes, es).started == Run(maxCount, maxBytes, es).accepted
  {
    RunKeepsInv(maxCount, maxBytes, es);
  }

  // ----- the class -----------------------------------------------------------------------------------

  class Mailbox {
    const maxCount: nat
    const maxBytes: nat
    var s: State
    ghost var events: seq<Event>

    ghost predicate Valid()
      reads this
    {
      s == Run(maxCount, maxBytes, events)
    }

    constructor (maxCount: nat, maxBytes: nat)
      ensures Valid() && events == [] && this.maxCount == maxCount && this.maxBytes == maxBytes
    {
      this.maxCount := maxCount;
      this.maxBytes := maxBytes;
      s := INITIAL;
      events := [];
    }

    method Note(e: Event, after: State)
      requires Valid() && after == Step(maxCount, maxBytes, s, e)
      modifies this
      ensures Valid() && s == after && events == old(events) + [e]
    {
      s := after;
      events := events + [e];
      assert events[..|events| - 1] == old(events);
    }

    /** True when the terminal callback is called. */
    method PoisonNow() returns (told: bool)
      requires Valid()
      modifies this
      ensures Valid() && s.poisoned && events == old(events) + [Poison]
      ensures told <==> !old(s.poisoned)
    {
      told := !s.poisoned;
      Note(Poison, if s.poisoned then s else s.(poisoned := true, terminals := s.terminals + 1));
    }

    method EnqueueWork(id: Id, size: nat) returns (taken: bool)
      requires Valid() && id !in s.accepted
      modifies this
      ensures Valid() && events == old(events) + [Enqueue(id, size)]
      ensures taken <==> s.accepted == old(s.accepted) + [id]
      ensures taken <==> !old(s.poisoned) && |old(s.queue)| < maxCount && Size(old(s.queue)) + size <= maxBytes
      ensures !taken ==> s.poisoned && s.accepted == old(s.accepted)
    {
      RunKeepsInv(maxCount, maxBytes, events);
      taken := false;
      if s.poisoned {
        Note(Enqueue(id, size), s);
      } else if s.count >= maxCount || s.bytes + size > maxBytes {
        Note(Enqueue(id, size), s.(poisoned := true, terminals := s.terminals + 1));
      } else {
        taken := true;
        Note(Enqueue(id, size),
             s.(queue := s.queue + [Entry(id, size)], count := s.count + 1, bytes := s.bytes + size,
                accepted := s.accepted + [id]));
      }
    }

    /** The chain runs dry: each entry is applied, or passed over once the runtime is poisoned. */
    method Drained()
      requires Valid()
      modifies this
      ensures Valid() && old(events) <= events && s.queue == []
      ensures s.count == 0 && s.bytes == 0
      ensures !s.poisoned ==> s.started == s.accepted
    {
      while s.queue != []
        invariant Valid() && old(events) <= events
        decreases |s.queue|, if s.stage.Waiting? then 3 else if s.stage.Applying? then 2 else if s.stage.Failed? then 1
          else 0
      {
        RunKeepsInv(maxCount, maxBytes, events);
        if s.stage.Waiting? {
          Note(Begin, Step(maxCount, maxBytes, s, Begin));
        } else if s.stage.Applying? {
          var ok: bool := *;
          Note(Applied(ok), Step(maxCount, maxBytes, s, Applied(ok)));
        } else if s.stage.Failed? {
          Note(Catch, Step(maxCount, maxBytes, s, Catch));
        } else {
          Note(Finally, s.(queue := s.queue[1..], stage := Waiting, count := s.count - 1,
                           bytes := s.bytes - s.queue[0].size));
        }
      }
      RunKeepsInv(maxCount, maxBytes, events);
    }
  }

  /** One entry's turn in a sound mailbox, from any reachable state: applied, counted out and gone; or, when
      its application fails, gone too, but the mailbox is poisoned then and its callback was called. */
  lemma EntryRuns(maxCount: nat, maxBytes: nat, s: State, ok: bool)
    requires Inv(maxCount, maxBytes, s) && !s.poisoned && s.queue != [] && s.stage.Waiting?
    ensures var s1 := Step(maxCount, maxBytes, Step(maxCount, maxBytes, s, Begin), Applied(ok));
            var s2 := Step(maxCount, maxBytes, if ok then s1 else Step(maxCount, maxBytes, s1, Catch), Finally);
            && s2.queue == s.queue[1..] && s2.count == s.count - 1 && s2.bytes == s.bytes - s.queue[0].size
            && s2.stage.Waiting? && s2.started == s.started + [s.queue[0].id] && s2.accepted == s.accepted
            && s2.poisoned == !ok && s2.terminals == if ok then s.terminals else s.terminals + 1
  {
    hide Do;
    assert Size(s.queue) >= s.queue[0].size;
    EventLeaves(maxCount, maxBytes, s, Begin);
    var begun := Step(maxCount, maxBytes, s, Begin);
    EventLeaves(maxCount, maxBytes, begun, Applied(ok));
    var applied := Step(maxCount, maxBytes, begun, Applied(ok));
    if !ok { EventLeaves(maxCount, maxBytes, applied, Catch); }
    EventLeaves(maxCount, maxBytes, if ok then applied else Step(maxCount, maxBytes, applied, Catch), Finally);
  }
}
