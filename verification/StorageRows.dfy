/** `processWorkspaceStorage` (apps/supervisor/src/workspace-storage.ts): the database row of a
    create or removal, kept beside a receipt and a directory that are durable on their own. */
module StorageRows {
  import opened R = WorkspaceReceipts

  datatype Row = Queued(retry: bool) | Dispatching(retry: bool) | RowCompleted | RowFailed

  datatype System = System(row: Row, s: State)

  datatype Event =
    | Deny                        // a queued row whose schedule lost its grant
    | Dispatch
    | Send
    | Work(e: R.Event)            // the launcher, its helper, crashes and power losses
    | Reply(committed: bool)      // the answer arrives; its transaction commits or not
    | LoseReply
    | Retry                       // the user retries a failed removal

  predicate Enabled(x: System, e: Event) {
    match e
    case Deny => x.row == Queued(false)
    case Dispatch => x.row.Queued?
    case Send => x.row.Dispatching? && x.s.call.NoCall?
    case Work(w) => !w.Begin? && !w.End? && R.Enabled(x.s, w)
    case Reply(_) => x.row.Dispatching? && x.s.call.Done?
    case LoseReply => x.s.call.Done?
    case Retry => x.row.RowFailed? && !x.s.creating
  }

  function Settled(row: Row, ending: Ending): (r: Row) {
    if ending.Returned? then RowCompleted else if ending.StorageFailed? then RowFailed else row
  }

  function Do(x: System, e: Event): (x': System)
    requires Enabled(x, e)
  {
    match e
    case Deny => x.(row := RowFailed)
    case Dispatch => x.(row := Dispatching(x.row.retry))
    case Send => x.(s := R.Do(x.s, Begin(x.row.retry)))
    case Work(w) => x.(s := R.Do(x.s, w))
    case Reply(committed) =>
      System(if committed then Settled(x.row, x.s.call.ending) else x.row, R.Do(x.s, End))
    case LoseReply => x.(s := R.Do(x.s, End))
    case Retry => x.(row := Queued(true))
  }

  function Step(x: System, e: Event): (x': System) {
    if Enabled(x, e) then Do(x, e) else x
  }

  function Run(start: State, es: seq<Event>): (x: System)
    decreases |es|
  {
    if es == [] then System(Queued(false), start) else Step(Run(start, es[..|es| - 1]), es[|es| - 1])
  }

  predicate RowTrue(x: System) {
    match x.row
    case Queued(retry) =>
      if retry then x.s.record.Missing? || x.s.record.Failed? else x.s.record.Missing?
    case Dispatching(_) => true
    case RowCompleted => x.s.record.Completed?
    case RowFailed => x.s.record.Failed? || x.s.record.Missing?
  }

  predicate Inv(x: System) {
    R.Inv(x.s) && RowTrue(x) && (!x.row.Dispatching? ==> x.s.call.NoCall?)
  }

  lemma StepKeepsInv(x: System, e: Event)
    requires Inv(x)
    ensures Inv(Step(x, e))
  {
    if Enabled(x, e) {
      if e.Send? { R.StepKeepsInv(x.s, Begin(x.row.retry)); }
      if e.Work? { R.StepKeepsInv(x.s, e.e); }
      if e.Reply? || e.LoseReply? { R.StepKeepsInv(x.s, End); }
    }
  }

  lemma RunKeepsInv(start: State, es: seq<Event>)
    requires R.Start(start)
    ensures Inv(Run(start, es))
    decreases |es|
  {
    if es != [] {
      RunKeepsInv(start, es[..|es| - 1]);
      StepKeepsInv(Run(start, es[..|es| - 1]), es[|es| - 1]);
    }
  }

  lemma KindStays(start: State, es: seq<Event>)
    ensures Run(start, es).s.creating == start.creating && Run(start, es).s.home == start.home
    decreases |es|
  {
    if es != [] { KindStays(start, es[..|es| - 1]); }
  }

  /** A completed row names a durable effect; a failed row left nothing behind. Lost replies,
      aborted transactions, restarts and power losses change neither. */
  lemma RowSaysWhatHappened(start: State, es: seq<Event>)
    requires R.Start(start)
    ensures var x := Run(start, es);
            && (x.row.RowCompleted? ==>
                  Flushed(x.s) && !x.s.busy && if start.creating then x.s.checkout.Full? else x.s.checkout.Absent?)
            && (x.row.RowFailed? ==>
                  !x.s.busy && forall c :: c in x.s.past ==>
                    if start.creating then !Populated(c) else c == Full(start.home))
  {
    RunKeepsInv(start, es);
    KindStays(start, es);
  }

  /** One pass of the supervisor that meets no fault. */
  function Tick(x: System, works: bool): (x': System)
    requires Inv(x) && x.s.call.NoCall?
  {
    if !x.row.Queued? && !x.row.Dispatching? then x
    else
      var sent := x.(row := Dispatching(x.row.retry), s := R.Step(x.s, Begin(x.row.retry)));
      R.StepKeepsInv(x.s, Begin(x.row.retry));
      Step(sent.(s := R.Settle(sent.s, works)), Reply(true))
  }

  /** Whatever went wrong before, one faultless pass closes the row: always for a removal, and for
      a create exactly when its receipt is not stuck. A row closed as failed agrees with its receipt. */
  lemma OneTickCloses(start: State, es: seq<Event>, works: bool)
    requires R.Start(start) && Run(start, es).s.call.NoCall?
    ensures Inv(Run(start, es))
    ensures var x := Run(start, es);
            var t := Tick(x, works);
            && ((t.row.RowCompleted? || t.row.RowFailed?) <==> (!Stuck(x.s) || x.row.RowCompleted? || x.row.RowFailed?))
            && (!start.creating ==> t.row.RowCompleted? || t.row.RowFailed?)
            && (t.row.RowCompleted? ==> t.s.record.Completed?)
            && (t.row.RowFailed? && !x.row.RowFailed? ==> t.s.record.Failed?)
  {
    RunKeepsInv(start, es);
    KindStays(start, es);
    var x := Run(start, es);
    if x.row.Queued? || x.row.Dispatching? {
      var t := R.Step(x.s, Begin(x.row.retry));
      R.StepKeepsInv(x.s, Begin(x.row.retry));
      if Stuck(x.s) { SettleRefuses(t, works); } else { SettleAnswers(t, works); }
    }
  }

  /** What each event leaves: a dispatched row keeps whether it is a retry and tells the launcher; the
      answer moves the row as the call ended if its transaction commits, and only then; a denied row has
      failed, and a retried one is queued as a retry. */
  lemma EventLeaves(x: System, e: Event)
    requires Enabled(x, e)
    ensures match e
            case Deny => Do(x, e) == System(RowFailed, x.s)
            case Dispatch => Do(x, e) == System(Dispatching(x.row.retry), x.s)
            case Send => Do(x, e) == System(x.row, x.s.(call := Loading(x.row.retry)))
            case Work(w) => Do(x, e) == System(x.row, R.Step(x.s, w))
            case Reply(committed) =>
              Do(x, e) == System(if !committed then x.row
                                 else match x.s.call.ending
                                   case Returned => RowCompleted
                                   case StorageFailed => RowFailed
                                   case Threw => x.row,
                                 x.s.(call := NoCall))
            case LoseReply => Do(x, e) == System(x.row, x.s.(call := NoCall))
            case Retry => Do(x, e) == System(Queued(true), x.s)
  {
    hide R.Advance;
  }
}
