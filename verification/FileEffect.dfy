/** One durable file operation: its receipt on disk, its writing helper and the effect
    that the helper publishes (infra/files/service.ts, launcher.ts, helper.py).

    The supervisor process may die between any two events. A helper outlives it, so an
    authorized helper may publish long after the call that authorized it is gone. */
module FileEffect {

  /** What the helper prints: the content it wrote and the revision it read back. */
  datatype Result = Result(content: nat, revision: nat)

  datatype Receipt =
    | Missing
    | Dispatching
    | Prepared(content: nat)
    | Applied(result: Result)
    | Completed(result: Result)

  /** How the helper left: with its result, with a `before-publication` error,
      or without a usable answer. */
  datatype Exit = Printed(result: Result) | Rejected | Unknown

  datatype Helper =
    | Absent
    | Idle                      // started, no request read yet
    | Working
    | Offering(content: nat)    // printed its `prepared` frame
    | Authorized(content: nat)  // read `{"publish":true}`
    | Published(result: Result)
    | Exited(exit: Exit)

  datatype Reply = Got(result: Result) | Threw(rejected: bool)

  /** `late` marks an error raised by or after the check that follows publication. */
  datatype Outcome = Returned(result: Result) | Failed(rejected: bool, late: bool)

  /** Where `executeFile` stands between two awaits. */
  datatype Call =
    | NoCall
    | Reading
    | Retrying(seen: Receipt)
    | Confirmed(seen: Receipt)
    | Claiming
    | Launching
    | Attached
    | Waiting
    | Saving(content: nat)
    | Acking(content: nat)
    | Listening
    | Closing(reply: Reply)
    | Storing(result: Result)
    | Checking(result: Result)
    | Flushing(result: Result)
    | Finishing(result: Result)
    | Done(outcome: Outcome)

  /** Where `inspectFileEffect` stands. */
  datatype Probe =
    | NoProbe
    | ProbeRetiring
    | ProbeReading
    | ProbeChecking(result: Result)
    | ProbeFlushing(result: Result)
    | ProbeSaving(result: Result)
    | Reported(result: Result)
    | Unresolved

  datatype State = State(
    receipt: Receipt,
    intent: nat,            // command hash stored with the receipt
    helper: Helper,
    disk: Result,           // the file or ref that the operation targets
    call: Call,
    asked: nat,             // command hash of the running call
    probe: Probe,
    probed: nat,
    // history
    launches: nat,
    sent: bool,
    publications: seq<Result>,
    checked: bool,
    flushed: bool)

  const INITIAL := State(Missing, 0, Absent, Result(0, 0), NoCall, 0, NoProbe, 0, 0, false, [], false, false)

  /** `reported` is what the caller learns of a write, `saved` whether it reached the disk. */
  datatype Event =
    | Begin(hash: nat)
    | Read
    | Retire(removed: bool, confirmed: bool)
    | Resume
    | Save(saved: bool, reported: bool)
    | Launch(started: bool)
    | Send(delivered: bool, accepted: bool)
    | SeePrepared
    | Acknowledge
    | Collect
    | Lose
    | Check(ok: bool, rejected: bool)
    | Flush(ok: bool)
    | End
    | ProbeBegin(hash: nat)
    | ProbeStep(ok: bool, saved: bool)
    | ProbeEnd
    | HelperOffer(content: nat)
    | HelperPublish(revision: nat)
    | HelperPrint
    | HelperExit(rejecting: bool)
    | OutsideRetire
    | Edit(disk: Result)
    | Crash

  // ----- one event ---------------------------------------------------------------

  function AfterRead(s: State): (c: Call) {
    if s.receipt.Missing? then Claiming
    else if s.intent != s.asked then Done(Failed(false, false))
    else Retrying(s.receipt)
  }

  function AfterResume(seen: Receipt): (c: Call) {
    match seen
    case Completed(r) => Done(Returned(r))
    case Applied(r) => Checking(r)
    case _ => Done(Failed(false, false))
  }

  function AfterExit(exit: Exit): (c: Call) {
    match exit
    case Printed(r) => Closing(Got(r))
    case Rejected => Closing(Threw(true))
    case Unknown => Closing(Threw(false))
  }

  function AfterRetire(c: Call, confirmed: bool): (c': Call)
    requires c.Retrying? || c.Closing?
  {
    if !confirmed then Done(Failed(false, false))
    else match c
      case Retrying(seen) => Confirmed(seen)
      case Closing(Got(r)) => Storing(r)
      case Closing(Threw(rejected)) => Done(Failed(rejected, false))
  }

  predicate Writes(c: Call) {
    c.Claiming? || c.Saving? || c.Storing? || c.Finishing?
  }

  /** The record that the running call is about to persist. */
  function Written(c: Call): (r: Receipt)
    requires Writes(c)
  {
    match c
    case Claiming => Dispatching
    case Saving(content) => Prepared(content)
    case Storing(r) => Applied(r)
    case Finishing(r) => Completed(r)
  }

  function AfterSave(c: Call, reported: bool): (c': Call)
    requires Writes(c)
  {
    match c
    case Claiming => if reported then Launching else Done(Failed(false, false))
    case Saving(content) => if reported then Acking(content) else Closing(Threw(false))
    case Storing(r) => if reported then Checking(r) else Done(Failed(false, true))
    case Finishing(r) => if reported then Done(Returned(r)) else Done(Failed(false, true))
  }

  predicate ProbeEnabled(s: State, ok: bool, saved: bool) {
    && (s.probe.ProbeRetiring? || s.probe.ProbeReading? || s.probe.ProbeChecking? || s.probe.ProbeFlushing?
        || s.probe.ProbeSaving?)
    && (s.probe.ProbeChecking? && ok ==> s.disk == s.probe.result)
    && (s.probe.ProbeSaving? && ok ==> saved)
  }

  predicate Enabled(s: State, e: Event) {
    match e
    case Begin(_) => s.call.NoCall?
    case Read => s.call.Reading?
    case Retire(removed, confirmed) => (s.call.Retrying? || s.call.Closing?) && (confirmed ==> removed)
    case Resume => s.call.Confirmed?
    case Save(saved, reported) => Writes(s.call) && (reported ==> saved)
    case Launch(started) => s.call.Launching? && (started ==> s.helper.Absent?)
    case Send(delivered, accepted) => s.call.Attached? && (accepted ==> delivered)
    case SeePrepared => s.call.Waiting? && s.helper.Offering?
    case Acknowledge => s.call.Acking?
    case Collect => (s.call.Waiting? || s.call.Acking? || s.call.Listening?) && s.helper.Exited?
    case Lose => s.call.Waiting? || s.call.Acking? || s.call.Listening?
    case Check(ok, _) => s.call.Checking? && (ok ==> s.disk == s.call.result)
    case Flush(_) => s.call.Flushing?
    case End => s.call.Done?
    case ProbeBegin(_) => s.probe.NoProbe? && s.call.NoCall?
    case ProbeStep(ok, saved) => ProbeEnabled(s, ok, saved)
    case ProbeEnd => s.probe.Reported? || s.probe.Unresolved?
    case HelperOffer(_) => s.helper.Working?
    case HelperPublish(_) => s.helper.Authorized?
    case HelperPrint => s.helper.Published? && s.disk == s.helper.result
    case HelperExit(rejecting) =>
      // `publicationAuthorized` decides between the two error phases.
      && !s.helper.Absent? && !s.helper.Exited?
      && (rejecting ==> s.helper.Idle? || s.helper.Working? || s.helper.Offering?)
    case OutsideRetire => true
    case Edit(_) => true
    case Crash => true
  }

  function AfterProbeRead(s: State): (p: Probe) {
    if !s.receipt.Missing? && s.intent != s.probed then NoProbe
    else if s.receipt.Applied? then ProbeChecking(s.receipt.result)
    else if s.receipt.Completed? then Reported(s.receipt.result)
    else Unresolved
  }

  /** Inspection runs its own retire, read, check, flush and save in that order. */
  function ProbeNext(s: State, ok: bool, saved: bool): (s': State)
    requires ProbeEnabled(s, ok, saved)
  {
    if s.probe.ProbeRetiring? then
      s.(helper := if ok || saved then Absent else s.helper, probe := if ok then ProbeReading else NoProbe)
    else if s.probe.ProbeReading? then
      s.(probe := AfterProbeRead(s))
    else if s.probe.ProbeChecking? then
      s.(checked := s.checked || ok, probe := if ok then ProbeFlushing(s.probe.result) else Unresolved)
    else if s.probe.ProbeFlushing? then
      s.(flushed := s.flushed || ok, probe := if ok then ProbeSaving(s.probe.result) else Unresolved)
    else
      s.(receipt := if saved then Completed(s.probe.result) else s.receipt,
         probe := if ok then Reported(s.probe.result) else Unresolved)
  }

  function Do(s: State, e: Event): (s': State)
    requires Enabled(s, e)
  {
    match e
    case Begin(hash) => s.(call := Reading, asked := hash)
    case Read => s.(call := AfterRead(s))
    case Retire(removed, confirmed) =>
      s.(helper := if removed then Absent else s.helper, call := AfterRetire(s.call, confirmed))
    case Resume => s.(call := AfterResume(s.call.seen))
    case Save(saved, reported) =>
      s.(receipt := if saved then Written(s.call) else s.receipt,
         intent := if saved && s.call.Claiming? then s.asked else s.intent,
         call := AfterSave(s.call, reported))
    case Launch(started) =>
      if started then s.(helper := Idle, launches := s.launches + 1, call := Attached)
      else s.(call := Closing(Threw(false)))
    case Send(delivered, accepted) =>
      s.(helper := if delivered && s.helper.Idle? then Working else s.helper,
         sent := s.sent || delivered,
         call := if accepted then Waiting else Closing(Threw(false)))
    case SeePrepared => s.(call := Saving(s.helper.content))
    case Acknowledge =>
      s.(helper := if s.helper.Offering? then Authorized(s.helper.content) else s.helper,
         call := Listening)
    case Collect => s.(call := AfterExit(s.helper.exit))
    case Lose => s.(call := Closing(Threw(false)))
    case Check(ok, rejected) =>
      s.(checked := s.checked || ok,
         call := if ok then Flushing(s.call.result) else Done(Failed(rejected, true)))
    case Flush(ok) =>
      s.(flushed := s.flushed || ok,
         call := if ok then Finishing(s.call.result) else Done(Failed(false, true)))
    case End => s.(call := NoCall)
    case ProbeBegin(hash) => s.(probe := ProbeRetiring, probed := hash)
    case ProbeStep(ok, saved) => ProbeNext(s, ok, saved)
    case ProbeEnd => s.(probe := NoProbe)
    case HelperOffer(content) => s.(helper := Offering(content))
    case HelperPublish(revision) =>
      var r := Result(s.helper.content, revision);
      s.(disk := r, publications := s.publications + [r], helper := Published(r))
    case HelperPrint => s.(helper := Exited(Printed(s.helper.result)))
    case HelperExit(rejecting) => s.(helper := Exited(if rejecting then Rejected else Unknown))
    case OutsideRetire => s.(helper := Absent)
    case Edit(disk) => s.(disk := disk)
    case Crash => s.(call := NoCall, probe := NoProbe)
  }

  /** An event that is not enabled leaves the state alone, so every event list is a run. */
  function Step(s: State, e: Event): (s': State) {
    if Enabled(s, e) then Do(s, e) else s
  }

  /** The state after every event of `es`, oldest first. */
  function Run(es: seq<Event>): (s: State)
    decreases |es|
  {
    if es == [] then INITIAL else Step(Run(es[..|es| - 1]), es[|es| - 1])
  }

  // ----- what every step keeps ---------------------------------------------------

  function Rank(r: Receipt): (n: nat) {
    match r
    case Missing => 0
    case Dispatching => 1
    case Prepared(_) => 2
    case Applied(_) => 3
    case Completed(_) => 4
  }

  /** `b` is `a` or a later record of the same effect. */
  predicate Forward(a: Receipt, b: Receipt) {
    && Rank(a) <= Rank(b)
    && (a.Prepared? && b.Prepared? ==> a == b)
    && (a.Prepared? && (b.Applied? || b.Completed?) ==> b.result.content == a.content)
    && ((a.Applied? || a.Completed?) ==> b.result == a.result)
  }

  ghost predicate HelperInv(s: State) {
    match s.helper
    case Absent => true
    case Idle => s.receipt.Dispatching? && s.publications == []
    case Working => s.receipt.Dispatching? && s.publications == [] && s.sent
    case Offering(c) =>
      (s.receipt.Dispatching? || s.receipt == Prepared(c)) && s.publications == [] && s.sent
    case Authorized(c) => s.receipt == Prepared(c) && s.publications == [] && s.sent
    case Published(r) => s.receipt == Prepared(r.content) && s.publications == [r]
    case Exited(Printed(r)) => s.receipt == Prepared(r.content) && s.publications == [r]
    case Exited(Rejected) => (s.receipt.Dispatching? || s.receipt.Prepared?) && s.publications == []
    case Exited(Unknown) => s.receipt.Dispatching? || s.receipt.Prepared?
  }

  ghost predicate RecordInv(s: State) {
    match s.receipt
    case Missing => s.launches == 0 && s.helper.Absent? && s.publications == []
    case Dispatching => s.publications == []
    case Prepared(c) => s.publications == [] || (|s.publications| == 1 && s.publications[0].content == c)
    case Applied(r) => s.publications == [r] && s.helper.Absent?
    case Completed(r) => s.publications == [r] && s.helper.Absent? && s.checked && s.flushed
  }

  /** Whatever an un-exited or killed helper may still be when its prepared frame is known. */
  predicate StillOffering(h: Helper, c: nat) {
    h.Absent? || h == Offering(c) || h == Exited(Rejected) || h == Exited(Unknown)
  }

  ghost predicate CallInv(s: State) {
    match s.call
    case NoCall => true
    case Reading => true
    case Retrying(seen) => !seen.Missing? && Forward(seen, s.receipt) && s.asked == s.intent
    case Confirmed(seen) => !seen.Missing? && Forward(seen, s.receipt) && s.asked == s.intent
    case Claiming => s.receipt.Missing?
    case Launching => s.receipt.Dispatching? && s.launches == 0 && s.helper.Absent?
    case Attached =>
      s.receipt.Dispatching? && s.launches == 1 && (s.helper.Idle? || s.helper.Absent? || s.helper.Exited?)
    case Waiting => s.receipt.Dispatching? && s.launches == 1 && s.sent
    case Saving(c) => s.receipt.Dispatching? && s.launches == 1 && s.sent && StillOffering(s.helper, c)
    case Acking(c) => s.receipt == Prepared(c) && s.launches == 1 && s.sent && StillOffering(s.helper, c)
                      && s.publications == []
    case Listening => s.receipt.Prepared? && s.launches == 1 && s.sent
    case Closing(Got(r)) => s.receipt == Prepared(r.content) && s.publications == [r] && s.launches == 1
    case Closing(Threw(rejected)) =>
      && (s.receipt.Dispatching? || s.receipt.Prepared?)
      && (rejected ==> s.launches == 1 && s.publications == [] && (s.helper.Absent? || s.helper == Exited(Rejected)))
    case Storing(r) => s.receipt == Prepared(r.content) && s.publications == [r] && s.helper.Absent?
    case Checking(r) => Forward(Applied(r), s.receipt)
    case Flushing(r) => Forward(Applied(r), s.receipt) && s.checked
    case Finishing(r) => Forward(Applied(r), s.receipt) && s.checked && s.flushed
    case Done(Returned(r)) => s.receipt == Completed(r)
    case Done(Failed(rejected, late)) =>
      && (rejected && !late ==> s.launches == 1 && s.publications == [] && s.helper.Absent?)
      && (late ==> |s.publications| == 1 && s.helper.Absent?)
  }

  ghost predicate ProbeInv(s: State) {
    match s.probe
    case ProbeChecking(r) => Forward(Applied(r), s.receipt)
    case ProbeFlushing(r) => Forward(Applied(r), s.receipt) && s.checked
    case ProbeSaving(r) => Forward(Applied(r), s.receipt) && s.checked && s.flushed
    case Reported(r) => s.receipt == Completed(r)
    case _ => true
  }

  ghost predicate Inv(s: State) {
    && s.launches <= 1
    && |s.publications| <= 1
    && (s.publications != [] ==> s.sent)
    && (s.flushed ==> s.checked)
    && (s.checked ==> |s.publications| == 1)
    && (!s.helper.Absent? ==> s.launches == 1)
    && HelperInv(s) && RecordInv(s) && CallInv(s) && ProbeInv(s)
  }

  predicate ByHelper(e: Event) {
    e.HelperOffer? || e.HelperPublish? || e.HelperPrint? || e.HelperExit? || e.OutsideRetire? || e.Edit? || e.Crash?
  }

  predicate ByProbe(e: Event) {
    e.ProbeBegin? || e.ProbeStep? || e.ProbeEnd?
  }

  lemma HelperKeepsInv(s: State, e: Event)
    requires Inv(s) && Enabled(s, e) && ByHelper(e)
    ensures Inv(Do(s, e))
  {
  }

  /** Finishing an applied record moves every reader of it forward. */
  lemma ProbeSaveKeepsCallInv(s: State)
    requires Inv(s) && s.probe.ProbeSaving?
    ensures CallInv(s.(receipt := Completed(s.probe.result)))
  {
    assert s.receipt.Applied? || s.receipt.Completed?;
    assert s.receipt.result == s.probe.result;
  }

  /** A removed helper and a probe's own progress leave the running call's facts alone. */
  lemma RemovalKeepsInv(s: State)
    requires Inv(s)
    ensures Inv(s.(helper := Absent))
  {
  }

  lemma ProbeMoveKeepsInv(s: State, s': State)
    requires Inv(s) && (s.checked ==> s'.checked) && (s.flushed ==> s'.flushed)
    requires s' == s.(probe := s'.probe, probed := s'.probed, checked := s'.checked, flushed := s'.flushed)
    requires ProbeInv(s') && (s'.flushed ==> s'.checked) && (s'.checked ==> |s'.publications| == 1)
    ensures Inv(s')
  {
  }

  lemma ProbeSaveKeepsInv(s: State, saved: bool, ok: bool)
    requires Inv(s) && s.probe.ProbeSaving? && ProbeEnabled(s, ok, saved)
    ensures Inv(ProbeNext(s, ok, saved))
  {
    var t := if saved then s.(receipt := Completed(s.probe.result)) else s;
    if saved { ProbeSaveKeepsCallInv(s); }
    assert Inv(t);
    ProbeMoveKeepsInv(t, ProbeNext(s, ok, saved));
  }

  lemma ProbeStepKeepsInv(s: State, ok: bool, saved: bool)
    requires Inv(s) && ProbeEnabled(s, ok, saved)
    ensures Inv(ProbeNext(s, ok, saved))
  {
    if s.probe.ProbeSaving? {
      ProbeSaveKeepsInv(s, saved, ok);
    } else {
      RemovalKeepsInv(s);
      var t := if ProbeNext(s, ok, saved).helper == s.helper then s else s.(helper := Absent);
      ProbeMoveKeepsInv(t, ProbeNext(s, ok, saved));
    }
  }

  lemma ProbeKeepsInv(s: State, e: Event)
    requires Inv(s) && Enabled(s, e) && ByProbe(e)
    ensures Inv(Do(s, e))
  {
    if e.ProbeStep? {
      ProbeStepKeepsInv(s, e.ok, e.saved);
    } else {
      ProbeMoveKeepsInv(s, Do(s, e));
    }
  }

  lemma RetireKeepsInv(s: State, e: Event)
    requires Inv(s) && Enabled(s, e) && e.Retire?
    ensures Inv(Do(s, e))
  {
  }

  lemma SaveKeepsInv(s: State, e: Event)
    requires Inv(s) && Enabled(s, e) && e.Save?
    ensures Inv(Do(s, e))
  {
  }

  lemma ExchangeKeepsInv(s: State, e: Event)
    requires Inv(s) && Enabled(s, e)
    requires e.Launch? || e.Send? || e.SeePrepared? || e.Acknowledge? || e.Collect? || e.Lose?
    ensures Inv(Do(s, e))
  {
  }

  lemma CallKeepsInv(s: State, e: Event)
    requires Inv(s) && Enabled(s, e)
    requires e.Begin? || e.Read? || e.Resume? || e.Check? || e.Flush? || e.End?
    ensures Inv(Do(s, e))
  {
  }

  lemma StepKeepsInv(s: State, e: Event)
    requires Inv(s)
    ensures Inv(Step(s, e))
  {
    if Enabled(s, e) {
      if ByHelper(e) { HelperKeepsInv(s, e); }
      else if ByProbe(e) { ProbeKeepsInv(s, e); }
      else if e.Retire? { RetireKeepsInv(s, e); }
      else if e.Save? { SaveKeepsInv(s, e); }
      else if e.Launch? || e.Send? || e.SeePrepared? || e.Acknowledge? || e.Collect? || e.Lose? {
        ExchangeKeepsInv(s, e);
      }
      else { CallKeepsInv(s, e); }
    }
  }

  // ----- what holds over every run ------------------------------------------------

  lemma RunKeepsInv(es: seq<Event>)
    ensures Inv(Run(es))
    decreases |es|
  {
    if es != [] {
      RunKeepsInv(es[..|es| - 1]);
      StepKeepsInv(Run(es[..|es| - 1]), es[|es| - 1]);
    }
  }

  ghost predicate Reachable(s: State) {
    exists es :: Run(es) == s
  }

  lemma InitialIsReachable()
    ensures Reachable(INITIAL)
  {
    assert Run([]) == INITIAL;
  }

  lemma StepIsReachable(s: State, e: Event)
    requires Reachable(s)
    ensures Reachable(Step(s, e))
  {
    var es :| Run(es) == s;
    assert (es + [e])[..|es + [e]| - 1] == es;
    assert Run(es + [e]) == Step(s, e);
  }

  lemma ReachableKeepsInv(s: State)
    requires Reachable(s)
    ensures Inv(s)
  {
    var es :| Run(es) == s;
    RunKeepsInv(es);
  }

  /** One helper at most, one publication at most, and no publication before its receipt. */
  lemma AtMostOneEffect(es: seq<Event>)
    ensures Run(es).launches <= 1
    ensures |Run(es).publications| <= 1
    ensures Run(es).publications != [] ==>
      Run(es).receipt.Prepared? || Run(es).receipt.Applied? || Run(es).receipt.Completed?
    ensures Run(es).receipt.Applied? ==> Run(es).publications == [Run(es).receipt.result]
    ensures Run(es).receipt.Completed? ==>
      Run(es).publications == [Run(es).receipt.result] && Run(es).checked && Run(es).flushed
  {
    RunKeepsInv(es);
  }

  lemma StepMovesForward(s: State, e: Event)
    requires Inv(s)
    ensures Forward(s.receipt, Step(s, e).receipt)
  {
    hide Inv, Step, Forward;
    if e.Save? { SaveMovesForward(s, e); }
    else if e.ProbeStep? { ProbeMovesForward(s, e); }
    else { RecordStays(s, e); }
  }

  lemma SaveMovesForward(s: State, e: Event)
    requires Inv(s) && e.Save?
    ensures Forward(s.receipt, Step(s, e).receipt)
  {
    hide HelperInv, ProbeInv;
  }

  lemma ProbeMovesForward(s: State, e: Event)
    requires Inv(s) && e.ProbeStep?
    ensures Forward(s.receipt, Step(s, e).receipt)
  {
    hide HelperInv, CallInv;
  }

  lemma RecordStays(s: State, e: Event)
    requires !e.Save? && !e.ProbeStep?
    ensures Forward(s.receipt, Step(s, e).receipt)
  {
    hide Enabled, ProbeNext, Written, AfterRead, AfterResume, AfterExit, AfterRetire;
  }

  lemma ForwardComposes(a: Receipt, b: Receipt, c: Receipt)
    requires Forward(a, b) && Forward(b, c)
    ensures Forward(a, c)
  {
  }

  /** Receipts only move forward, whatever happens after `es`, crashes included. */
  lemma {:induction false} ReceiptsMoveForward(es: seq<Event>, later: seq<Event>)
    ensures Forward(Run(es).receipt, Run(es + later).receipt)
    decreases |later|
  {
    hide Step, Inv;
    if later == [] {
      assert es + later == es;
    } else {
      var n := |later| - 1;
      ReceiptsMoveForward(es, later[..n]);
      assert (es + later)[..|es + later| - 1] == es + later[..n];
      RunKeepsInv(es + later[..n]);
      StepMovesForward(Run(es + later[..n]), later[n]);
      ForwardComposes(Run(es).receipt, Run(es + later[..n]).receipt, Run(es + later).receipt);
    }
  }

  /** A result that a call returns or an inspection reports. */
  predicate Answers(s: State, r: Result) {
    s.call == Done(Returned(r)) || s.probe == Reported(r)
  }

  /** Every answer, in any later call, inspection or process, is the one published result. */
  lemma AnswersAgree(es: seq<Event>, later: seq<Event>, first: Result, second: Result)
    requires Answers(Run(es), first) && Answers(Run(es + later), second)
    ensures first == second
    ensures Run(es).publications == [first]
  {
    RunKeepsInv(es);
    RunKeepsInv(es + later);
    ReceiptsMoveForward(es, later);
  }

  /** The file held the published result at some moment after it was published. */
  ghost predicate SeenInPlace(es: seq<Event>, k: nat) {
    && k <= |es|
    && |Run(es[..k]).publications| == 1
    && Run(es[..k]).disk == Run(es[..k]).publications[0]
  }

  lemma FirstCheck(s: State, e: Event)
    requires Inv(s) && !s.checked && Step(s, e).checked
    ensures |s.publications| == 1 && s.disk == s.publications[0]
  {
  }

  lemma {:induction false} CheckSawTheEffect(es: seq<Event>)
    requires Run(es).checked
    ensures exists k: nat :: k < |es| && SeenInPlace(es, k)
    decreases |es|
  {
    var n := |es| - 1;
    var before := es[..n];
    RunKeepsInv(before);
    if Run(before).checked {
      CheckSawTheEffect(before);
      var k: nat :| k < |before| && SeenInPlace(before, k);
      assert before[..k] == es[..k];
      assert SeenInPlace(es, k);
    } else {
      FirstCheck(Run(before), es[n]);
      assert SeenInPlace(es, n);
    }
  }

  /** An error before publication that reached the caller as a rejection means no effect,
      now or later: the helper is gone. */
  lemma RejectionIsFinal(es: seq<Event>, later: seq<Event>)
    requires Run(es).call == Done(Failed(true, false))
    ensures Run(es + later).publications == []
    decreases |later|
  {
    RunKeepsInv(es);
    GoneStaysGone(es, later);
  }

  lemma GoneStep(s: State, e: Event)
    requires Inv(s) && s.helper.Absent? && s.launches == 1 && s.publications == []
    ensures Step(s, e).helper.Absent? && Step(s, e).launches == 1 && Step(s, e).publications == []
  {
  }

  lemma {:induction false} GoneStaysGone(es: seq<Event>, later: seq<Event>)
    requires Run(es).helper.Absent? && Run(es).launches == 1 && Run(es).publications == []
    ensures Run(es + later).helper.Absent? && Run(es + later).launches == 1 && Run(es + later).publications == []
    decreases |later|
  {
    if later == [] {
      assert es + later == es;
    } else {
      var n := |later| - 1;
      GoneStaysGone(es, later[..n]);
      assert (es + later)[..|es + later| - 1] == es + later[..n];
      RunKeepsInv(es + later[..n]);
      GoneStep(Run(es + later[..n]), later[n]);
    }
  }
}
