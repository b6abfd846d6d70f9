/** The stored messages of one conversation: native output as it arrives
    (apps/supervisor/src/conversation-output.ts), reconciliation with the native history after a
    failure (apps/supervisor/src/recovery.ts), and new questions (packages/storage/src/turns.ts). */
module MessageHistory {

  datatype Option<T> = None | Some(value: T)

  datatype Role = User | Assistant | Tool | System

  datatype Status = Streaming | Complete | Recovered

  /** `native` is the item id; questions have none. */
  datatype Row = Row(native: Option<string>, role: Role, operation: nat, text: string, status: Status)

  const ALL_BYTES := 2097152
  const TOOL_BYTES := 262144
  const TEXT_UNITS := 262144
  const COUNT := 2000
  const TOOL_COUNT := 1900
  const COMMAND_LIMIT := 32768
  const ITEMS := 2000
  const LIMIT_ID := "harbor-command-output-limit"
  const LIMIT_NOTICE :=
    "Further command diagnostics are omitted: the conversation output limit was reached. " +
    "Assistant responses continue separately."
  const CUT_NOTICE := "\n[Command output truncated at 32 KiB]"

  // ----- sizes ------------------------------------------------------------------------------------

  function Width(c: char): (n: nat)
    ensures 1 <= n <= 4
  {
    if c < 0x80 as char then 1 else if c < 0x800 as char then 2 else if c as int < 0x10000 then 3 else 4
  }

  /** The length in UTF-8. */
  function Octets(text: string): (n: nat) {
    if text == [] then 0 else Width(text[0]) + Octets(text[1..])
  }

  /** The length in UTF-16 units, which the text limit counts. */
  function Units(text: string): (n: nat) {
    if text == [] then 0 else (if text[0] as int < 0x10000 then 1 else 2) + Units(text[1..])
  }

  lemma OctetsSplit(a: string, b: string)
    ensures Octets(a + b) == Octets(a) + Octets(b)
    decreases |a|
  {
    if a == [] {
      assert a + b == b;
    } else {
      OctetsSplit(a[1..], b);
      assert (a + b)[1..] == a[1..] + b;
    }
  }

  /** The first `n` bytes, decoded again: a character cut in two becomes the replacement character. */
  function Cut(text: string, n: nat): (r: string) {
    if text == [] || n == 0 then []
    else if Width(text[0]) <= n then [text[0]] + Cut(text[1..], n - Width(text[0]))
    else ['\U{FFFD}']
  }

  function Bounded(text: string, limit: nat): (r: string)
    requires limit >= 100
  {
    if Octets(text) <= limit then text else Cut(text, limit - 100) + CUT_NOTICE
  }

  lemma CutFits(text: string, n: nat)
    ensures Octets(Cut(text, n)) <= n + 2
    decreases |text|
  {
    if text != [] && n > 0 && Width(text[0]) <= n {
      CutFits(text[1..], n - Width(text[0]));
      assert Cut(text, n)[1..] == Cut(text[1..], n - Width(text[0]));
    } else if text != [] && n > 0 {
      assert ['\U{FFFD}'][1..] == [];
    }
  }

  lemma NoticeIsAscii(text: string)
    requires forall i :: 0 <= i < |text| ==> text[i] < 0x80 as char
    ensures Octets(text) == |text|
    decreases |text|
  {
    if text != [] { NoticeIsAscii(text[1..]); }
  }

  lemma CutNoticeSize()
    ensures Octets(CUT_NOTICE) == 37
  {
    hide Octets;
    assert |CUT_NOTICE| == 37;
    NoticeIsAscii(CUT_NOTICE);
  }

  lemma BoundedFits(text: string, limit: nat)
    requires limit >= 100
    ensures Octets(Bounded(text, limit)) <= limit
  {
    hide Octets, Cut;
    if Octets(text) > limit {
      CutFits(text, limit - 100);
      OctetsSplit(Cut(text, limit - 100), CUT_NOTICE);
      CutNoticeSize();
    }
  }

  // ----- rows ---------------------------------------------------------------------------------------

  function Total(rows: seq<Row>): (n: nat) {
    if rows == [] then 0 else Total(rows[..|rows| - 1]) + Octets(rows[|rows| - 1].text)
  }

  function ToolTotal(rows: seq<Row>): (n: nat) {
    if rows == [] then 0
    else ToolTotal(rows[..|rows| - 1]) + if rows[|rows| - 1].role.Tool? then Octets(rows[|rows| - 1].text) else 0
  }

  /** The row of a native item, or -1. */
  function At(rows: seq<Row>, id: string): (i: int)
    ensures -1 <= i < |rows|
    ensures i >= 0 ==> rows[i].native == Some(id)
    ensures i < 0 ==> forall j :: 0 <= j < |rows| ==> rows[j].native != Some(id)
  {
    if rows == [] then -1
    else if rows[|rows| - 1].native == Some(id) then |rows| - 1
    else At(rows[..|rows| - 1], id)
  }

  /** The database allows one row for each native item. */
  predicate Unique(rows: seq<Row>) {
    forall i, j :: 0 <= i < j < |rows| && rows[i].native.Some? ==> rows[i].native != rows[j].native
  }

  lemma {:induction false} TotalAt(rows: seq<Row>, i: nat, row: Row)
    requires i < |rows|
    ensures Total(rows[i := row]) == Total(rows) - Octets(rows[i].text) + Octets(row.text)
    ensures Octets(rows[i].text) <= Total(rows)
    decreases |rows|
  {
    var n := |rows| - 1;
    if i == n {
      assert rows[i := row][..n] == rows[..n];
    } else {
      TotalAt(rows[..n], i, row);
      assert rows[i := row][..n] == rows[..n][i := row];
    }
  }

  lemma {:induction false} ToolTotalAt(rows: seq<Row>, i: nat, row: Row)
    requires i < |rows| && row.role == rows[i].role
    ensures ToolTotal(rows[i := row]) ==
            if row.role.Tool? then ToolTotal(rows) - Octets(rows[i].text) + Octets(row.text) else ToolTotal(rows)
    ensures row.role.Tool? ==> Octets(rows[i].text) <= ToolTotal(rows)
    decreases |rows|
  {
    var n := |rows| - 1;
    if i == n {
      assert rows[i := row][..n] == rows[..n];
    } else {
      ToolTotalAt(rows[..n], i, row);
      assert rows[i := row][..n] == rows[..n][i := row];
    }
  }

  lemma TotalsMore(rows: seq<Row>, row: Row)
    ensures Total(rows + [row]) == Total(rows) + Octets(row.text)
    ensures ToolTotal(rows + [row]) == ToolTotal(rows) + if row.role.Tool? then Octets(row.text) else 0
  {
    assert (rows + [row])[..|rows|] == rows;
  }

  lemma UniqueMore(rows: seq<Row>, row: Row)
    requires Unique(rows) && (row.native.Some? ==> At(rows, row.native.value) < 0)
    ensures Unique(rows + [row])
  {
  }

  lemma AtUnique(rows: seq<Row>, i: nat)
    requires Unique(rows) && i < |rows| && rows[i].native.Some?
    ensures At(rows, rows[i].native.value) == i
  {
  }

  // ----- native output ---------------------------------------------------------------------------------

  datatype Native =
    | AssistantDelta(id: string, delta: string)
    | AssistantFinal(id: string, said: string)
    | CommandDelta(id: string, delta: string)
    | CommandStarted(id: string, heading: string, output: Option<string>)
    | CommandCompleted(id: string, heading: string, output: Option<string>, ending: string)

  function RoleOf(e: Native): (r: Role) {
    if e.AssistantDelta? || e.AssistantFinal? then Assistant else Tool
  }

  predicate Final(e: Native) { e.AssistantFinal? || e.CommandCompleted? }

  function TextOf(e: Native, known: string, existing: bool): (text: string) {
    match e
    case AssistantDelta(_, delta) => known + delta
    case AssistantFinal(_, said) => said
    case CommandDelta(_, delta) => Bounded(known + delta, COMMAND_LIMIT)
    case CommandStarted(_, heading, output) =>
      Bounded(if output.Some? then heading + output.value else if existing then known else heading, COMMAND_LIMIT)
    case CommandCompleted(_, heading, output, ending) =>
      var text := if output.Some? then heading + output.value else if existing then known else heading;
      Bounded(Bounded(text, COMMAND_LIMIT - 256) + ending, COMMAND_LIMIT)
  }

  datatype Outcome = Outcome(rows: seq<Row>, stored: bool)

  predicate Refused(rows: seq<Row>, operation: nat, e: Native) {
    var i := At(rows, e.id);
    i >= 0 && (rows[i].operation != operation || rows[i].role != RoleOf(e))
  }

  function Notice(rows: seq<Row>, operation: nat): (r: seq<Row>) {
    if Total(rows) + Octets(LIMIT_NOTICE) <= ALL_BYTES && |rows| < COUNT && At(rows, LIMIT_ID) < 0
    then rows + [Row(Some(LIMIT_ID), System, operation, LIMIT_NOTICE, Complete)] else rows
  }

  function Stored(rows: seq<Row>, i: int, row: Row): (r: seq<Row>)
    requires -1 <= i < |rows|
  {
    if i < 0 then rows + [row] else rows[i := row]
  }

  /** `saveConversationOutput`. A thrown error rolls the transaction back. */
  function Save(rows: seq<Row>, operation: nat, e: Native): (r: Outcome) {
    if e.id == "" || Refused(rows, operation, e) then Outcome(rows, false)
    else
      var i := At(rows, e.id);
      if i >= 0 && rows[i].status.Complete? && !Final(e) then Outcome(rows, false)
      else
        var known := if i < 0 then "" else rows[i].text;
        var text := TextOf(e, known, i >= 0);
        var bytes := Total(rows) - Octets(known) + Octets(text);
        var over := bytes > ALL_BYTES;
        if RoleOf(e).Tool?
           && (ToolTotal(rows) - Octets(known) + Octets(text) > TOOL_BYTES || over || (i < 0 && |rows| >= TOOL_COUNT))
        then Outcome(Notice(rows, operation), false)
        else if Units(text) > TEXT_UNITS || over || (i < 0 && |rows| >= COUNT) then Outcome(rows, false)
        else
          var status := if Final(e) then Complete else Streaming;
          Outcome(Stored(rows, i, Row(Some(e.id), RoleOf(e), operation, text, status)), true)
  }

  // ----- reconciliation ----------------------------------------------------------------------------------

  /** One item of the native history; `speech` is false for all but well-formed agent messages. */
  datatype Item = Item(id: string, speech: bool, text: string, operation: nat, whole: bool)

  datatype Report = Report(repaired: nat, conflicts: nat, truncated: bool)

  function Recover(rows: seq<Row>, item: Item, report: Report): (r: (seq<Row>, Report)) {
    var i := At(rows, item.id);
    if !item.speech then (rows, report)
    else if i >= 0 && rows[i].status.Complete? then
      (rows, if rows[i].text != item.text then report.(conflicts := report.conflicts + 1) else report)
    else if i >= 0 && !(rows[i].text <= item.text) then (rows, report.(conflicts := report.conflicts + 1))
    else
      var extra := Octets(item.text) - if i < 0 then 0 else Octets(rows[i].text);
      if Total(rows) + extra > ALL_BYTES || (i < 0 && |rows| >= COUNT) then (rows, report.(truncated := true))
      else
        var status := if item.whole then Complete else Recovered;
        (if i < 0 then rows + [Row(Some(item.id), Assistant, item.operation, item.text, status)]
         else rows[i := rows[i].(text := item.text, status := status)],
         report.(repaired := report.repaired + 1))
  }

  /** `reconcileNative` over the items of all turns; `seen` of them came before. */
  function Reconcile(rows: seq<Row>, items: seq<Item>, seen: nat, report: Report): (r: (seq<Row>, Report))
    decreases |items|
  {
    if items == [] then (rows, report)
    else if seen + 1 > ITEMS then (rows, report.(truncated := true))
    else
      var r := Recover(rows, items[0], report);
      Reconcile(r.0, items[1..], seen + 1, r.1)
  }

  /** What one item does to the rows: nothing, one more answer, or a longer text for an unfinished row. */
  predicate Grown(a: seq<Row>, b: seq<Row>) {
    && |a| <= |b|
    && (forall i :: |a| <= i < |b| ==> b[i].role.Assistant?)
    && forall i :: 0 <= i < |a| ==>
         && b[i].native == a[i].native && b[i].role == a[i].role && b[i].operation == a[i].operation
         && (a[i].status.Complete? ==> b[i] == a[i])
         && a[i].text <= b[i].text
  }

  lemma RecoverGrows(rows: seq<Row>, item: Item, report: Report)
    ensures Grown(rows, Recover(rows, item, report).0)
  {
  }

  lemma GrownThrough(a: seq<Row>, b: seq<Row>, c: seq<Row>)
    requires Grown(a, b) && Grown(b, c)
    ensures Grown(a, c)
  {
    forall i | 0 <= i < |a|
      ensures a[i].text <= c[i].text
    {
      assert a[i].text <= b[i].text <= c[i].text;
      assert c[i].text[..|a[i].text|] == b[i].text[..|a[i].text|];
    }
  }

  /** Reconciliation never changes a complete message, never drops or moves one, and touches the text
      of an unfinished one only by adding to its end; what it adds are answers. */
  lemma {:induction false} ReconcileOnlyExtends(rows: seq<Row>, items: seq<Item>, seen: nat, report: Report)
    ensures Grown(rows, Reconcile(rows, items, seen, report).0)
    decreases |items|
  {
    hide Grown, Recover;
    if items == [] || seen + 1 > ITEMS {
      SameIsGrown(rows);
    } else {
      var r := Recover(rows, items[0], report);
      RecoverGrows(rows, items[0], report);
      ReconcileOnlyExtends(r.0, items[1..], seen + 1, r.1);
      GrownThrough(rows, r.0, Reconcile(r.0, items[1..], seen + 1, r.1).0);
    }
  }

  lemma SameIsGrown(rows: seq<Row>)
    ensures Grown(rows, rows)
  {
  }

  // ----- the end of a turn ---------------------------------------------------------------------------------

  /** At the end of a turn the messages of its operation become complete, final or not. */
  function Ended(rows: seq<Row>, operation: nat): (r: seq<Row>)
    ensures |r| == |rows|
    ensures forall i :: 0 <= i < |rows| ==>
              r[i] == if rows[i].operation == operation then rows[i].(status := Complete) else rows[i]
  {
    seq(|rows|, i requires 0 <= i < |rows| =>
      if rows[i].operation == operation then rows[i].(status := Complete) else rows[i])
  }

  lemma {:induction false} EndedTotals(rows: seq<Row>, operation: nat)
    ensures Total(Ended(rows, operation)) == Total(rows) && ToolTotal(Ended(rows, operation)) == ToolTotal(rows)
    decreases |rows|
  {
    if rows != [] {
      EndedTotals(rows[..|rows| - 1], operation);
      assert Ended(rows, operation)[..|rows| - 1] == Ended(rows[..|rows| - 1], operation);
    }
  }

  lemma EndingKeepsBounds(rows: seq<Row>, operation: nat)
    requires Bounds(rows)
    ensures Bounds(Ended(rows, operation)) && ToolTotal(Ended(rows, operation)) == ToolTotal(rows)
  {
    hide Total, ToolTotal;
    EndedTotals(rows, operation);
  }

  // ----- runs ------------------------------------------------------------------------------------------------

  datatype Event =
    | Ask(operation: nat, text: string)
    | Output(operation: nat, e: Native)
    | EndTurn(operation: nat)
    | Reread(items: seq<Item>)

  const NOTHING: Report := Report(0, 0, false)

  function Step(rows: seq<Row>, e: Event): (r: seq<Row>) {
    match e
    case Ask(operation, text) =>
      if Total(rows) + Octets(text) > ALL_BYTES || |rows| >= COUNT then rows
      else rows + [Row(None, User, operation, text, Complete)]
    case Output(operation, native) => Save(rows, operation, native).rows
    case EndTurn(operation) => Ended(rows, operation)
    case Reread(items) => Reconcile(rows, items, 0, NOTHING).0
  }

  function Run(es: seq<Event>): (rows: seq<Row>) {
    if es == [] then [] else Step(Run(es[..|es| - 1]), es[|es| - 1])
  }

  predicate Bounds(rows: seq<Row>) {
    Unique(rows) && |rows| <= COUNT && Total(rows) <= ALL_BYTES
  }

  lemma NoticeKeepsBounds(rows: seq<Row>, operation: nat)
    requires Bounds(rows)
    ensures Bounds(Notice(rows, operation)) && ToolTotal(Notice(rows, operation)) == ToolTotal(rows)
  {
    hide Octets;
    var row := Row(Some(LIMIT_ID), System, operation, LIMIT_NOTICE, Complete);
    TotalsMore(rows, row);
    if At(rows, LIMIT_ID) < 0 { UniqueMore(rows, row); }
  }

  lemma StoredKeepsBounds(rows: seq<Row>, i: int, row: Row)
    requires Bounds(rows) && -1 <= i < |rows| && row.native.Some?
    requires i >= 0 ==> row.native == rows[i].native && row.role == rows[i].role
    requires i < 0 ==> |rows| < COUNT && At(rows, row.native.value) < 0
    requires Total(rows) - (if i < 0 then 0 else Octets(rows[i].text)) + Octets(row.text) <= ALL_BYTES
    ensures Bounds(Stored(rows, i, row))
    ensures ToolTotal(Stored(rows, i, row)) ==
            if row.role.Tool? then ToolTotal(rows) - (if i < 0 then 0 else Octets(rows[i].text)) + Octets(row.text)
            else ToolTotal(rows)
  {
    hide Octets, Total, ToolTotal;
    if i < 0 {
      TotalsMore(rows, row);
      UniqueMore(rows, row);
    } else {
      TotalAt(rows, i, row);
      ToolTotalAt(rows, i, row);
    }
  }

  lemma EmptyHasNoOctets()
    ensures Octets("") == 0
  {
  }

  /** The row that a stored event leaves. */
  function RowOf(rows: seq<Row>, operation: nat, e: Native): (row: Row) {
    var i := At(rows, e.id);
    Row(Some(e.id), RoleOf(e), operation, TextOf(e, if i < 0 then "" else rows[i].text, i >= 0),
        if Final(e) then Complete else Streaming)
  }

  function Known(rows: seq<Row>, id: string): (n: nat) {
    if At(rows, id) < 0 then 0 else Octets(rows[At(rows, id)].text)
  }

  lemma SaveShape(rows: seq<Row>, operation: nat, e: Native)
    ensures var s, i, row := Save(rows, operation, e), At(rows, e.id), RowOf(rows, operation, e);
            && (!s.stored ==> s.rows == rows || s.rows == Notice(rows, operation))
            && (s.stored ==>
                  && s.rows == Stored(rows, i, row)
                  && (i >= 0 ==> row.role == rows[i].role)
                  && (i < 0 ==> |rows| < COUNT)
                  && Total(rows) - Known(rows, e.id) + Octets(row.text) <= ALL_BYTES
                  && (row.role.Tool? ==> ToolTotal(rows) - Known(rows, e.id) + Octets(row.text) <= TOOL_BYTES))
  {
    hide Octets, Units, TextOf, Notice, Total, ToolTotal;
    EmptyHasNoOctets();
  }

  lemma SaveKeepsBounds(rows: seq<Row>, operation: nat, e: Native)
    requires Bounds(rows)
    ensures Bounds(Save(rows, operation, e).rows)
    ensures ToolTotal(rows) <= TOOL_BYTES ==> ToolTotal(Save(rows, operation, e).rows) <= TOOL_BYTES
  {
    hide Octets, Save, Notice, ToolTotal, TextOf;
    NoticeKeepsBounds(rows, operation);
    SaveShape(rows, operation, e);
    if Save(rows, operation, e).stored { StoredKeepsBounds(rows, At(rows, e.id), RowOf(rows, operation, e)); }
  }

  /** The item extends the unfinished row of a command, fits the conversation, and does not fit the
      room for command output: reconciliation takes it, as it does not look at the role. */
  predicate Overruns(rows: seq<Row>, item: Item) {
    var i := At(rows, item.id);
    && item.speech && i >= 0 && rows[i].role.Tool? && !rows[i].status.Complete? && rows[i].text <= item.text
    && Total(rows) + Octets(item.text) - Octets(rows[i].text) <= ALL_BYTES
    && ToolTotal(rows) + Octets(item.text) - Octets(rows[i].text) > TOOL_BYTES
  }

  lemma LongerIsMore(a: string, b: string)
    requires a <= b
    ensures Octets(a) <= Octets(b)
  {
    OctetsSplit(a, b[|a|..]);
    assert b == a + b[|a|..];
  }

  /** One item overruns the room for command output exactly under that condition, and never makes room. */
  lemma RecoverKeepsBounds(rows: seq<Row>, item: Item, report: Report)
    requires Bounds(rows)
    ensures Bounds(Recover(rows, item, report).0)
    ensures ToolTotal(rows) <= ToolTotal(Recover(rows, item, report).0)
    ensures ToolTotal(rows) <= TOOL_BYTES ==>
              (ToolTotal(Recover(rows, item, report).0) <= TOOL_BYTES <==> !Overruns(rows, item))
  {
    hide Octets, Bounds;
    var i, r := At(rows, item.id), Recover(rows, item, report).0;
    if i >= 0 && rows[i].text <= item.text { LongerIsMore(rows[i].text, item.text); }
    if r != rows {
      var row := Row(Some(item.id), if i < 0 then Assistant else rows[i].role,
                     if i < 0 then item.operation else rows[i].operation,
                     item.text, if item.whole then Complete else Recovered);
      assert r == Stored(rows, i, row);
      StoredKeepsBounds(rows, i, row);
    }
  }

  lemma {:induction false} ReconcileKeepsBounds(rows: seq<Row>, items: seq<Item>, seen: nat, report: Report)
    requires Bounds(rows)
    ensures Bounds(Reconcile(rows, items, seen, report).0)
    decreases |items|
  {
    hide Bounds, Recover;
    if items != [] && seen + 1 <= ITEMS {
      var r := Recover(rows, items[0], report);
      RecoverKeepsBounds(rows, items[0], report);
      ReconcileKeepsBounds(r.0, items[1..], seen + 1, r.1);
    }
  }

  /** Some item of this reading overruns when its turn comes. */
  predicate OverrunsIn(rows: seq<Row>, items: seq<Item>, seen: nat, report: Report)
    decreases |items|
  {
    && items != [] && seen + 1 <= ITEMS
    && (Overruns(rows, items[0])
        || var r := Recover(rows, items[0], report); OverrunsIn(r.0, items[1..], seen + 1, r.1))
  }

  lemma {:induction false} ReconcileMakesNoRoom(rows: seq<Row>, items: seq<Item>, seen: nat, report: Report)
    requires Bounds(rows)
    ensures ToolTotal(rows) <= ToolTotal(Reconcile(rows, items, seen, report).0)
    decreases |items|
  {
    hide Bounds, Recover, ToolTotal, Overruns;
    if items != [] && seen + 1 <= ITEMS {
      var r := Recover(rows, items[0], report);
      RecoverKeepsBounds(rows, items[0], report);
      ReconcileMakesNoRoom(r.0, items[1..], seen + 1, r.1);
    }
  }

  /** A reading leaves command output within its bound if and only if none of its items overruns. */
  lemma {:induction false} ReconcileKeepsTools(rows: seq<Row>, items: seq<Item>, seen: nat, report: Report)
    requires Bounds(rows) && ToolTotal(rows) <= TOOL_BYTES
    ensures ToolTotal(Reconcile(rows, items, seen, report).0) <= TOOL_BYTES <==> !OverrunsIn(rows, items, seen, report)
    decreases |items|
  {
    hide Bounds, Recover, ToolTotal, Overruns;
    if items != [] && seen + 1 <= ITEMS {
      var r := Recover(rows, items[0], report);
      RecoverKeepsBounds(rows, items[0], report);
      if Overruns(rows, items[0]) {
        ReconcileMakesNoRoom(r.0, items[1..], seen + 1, r.1);
      } else {
        ReconcileKeepsTools(r.0, items[1..], seen + 1, r.1);
      }
    }
  }

  lemma StepKeepsBounds(rows: seq<Row>, e: Event)
    requires Bounds(rows)
    ensures Bounds(Step(rows, e))
  {
    hide Octets, Bounds, Save, Reconcile;
    match e
    case Ask(operation, text) =>
      AskKeepsBounds(rows, operation, text);
    case Output(operation, native) => SaveKeepsBounds(rows, operation, native);
    case EndTurn(operation) => EndingKeepsBounds(rows, operation);
    case Reread(items) => ReconcileKeepsBounds(rows, items, 0, NOTHING);
  }

  lemma AskKeepsBounds(rows: seq<Row>, operation: nat, text: string)
    requires Bounds(rows)
    ensures Bounds(Step(rows, Ask(operation, text))) && ToolTotal(Step(rows, Ask(operation, text))) == ToolTotal(rows)
  {
    hide Octets;
    TotalsMore(rows, Row(None, User, operation, text, Complete));
    UniqueMore(rows, Row(None, User, operation, text, Complete));
  }

  /** At every point of every run: at most 2000 messages and 2 MiB. */
  lemma {:induction false} HistoryStaysBounded(es: seq<Event>)
    ensures Bounds(Run(es))
    decreases |es|
  {
    hide Bounds, Step;
    if es == [] {
      NothingIsBounded();
    } else {
      HistoryStaysBounded(es[..|es| - 1]);
      StepKeepsBounds(Run(es[..|es| - 1]), es[|es| - 1]);
    }
  }

  lemma NothingIsBounded()
    ensures Bounds([]) && ToolTotal([]) == 0
  {
  }

  /** No reading of the run has an item that overruns. */
  predicate NeverOverruns(es: seq<Event>)
    decreases |es|
  {
    es == [] ||
    (NeverOverruns(es[..|es| - 1])
     && (es[|es| - 1].Reread? ==> !OverrunsIn(Run(es[..|es| - 1]), es[|es| - 1].items, 0, NOTHING)))
  }

  lemma StepKeepsTools(rows: seq<Row>, e: Event)
    requires Bounds(rows) && ToolTotal(rows) <= TOOL_BYTES
    ensures ToolTotal(Step(rows, e)) <= TOOL_BYTES <==> !(e.Reread? && OverrunsIn(rows, e.items, 0, NOTHING))
  {
    hide Bounds, Save, Reconcile, ToolTotal, OverrunsIn;
    match e
    case Ask(operation, text) => AskKeepsBounds(rows, operation, text);
    case Output(operation, native) => SaveKeepsBounds(rows, operation, native);
    case EndTurn(operation) => EndingKeepsBounds(rows, operation);
    case Reread(items) => ReconcileKeepsTools(rows, items, 0, NOTHING);
  }

  /** Command output stays within 256 KiB at every point of a run if and only if no item of a
      reconciliation overruns. */
  lemma {:induction false} ToolsStayBoundedExactly(es: seq<Event>)
    ensures NeverOverruns(es) <==> forall k :: 0 <= k <= |es| ==> ToolTotal(Run(es[..k])) <= TOOL_BYTES
    decreases |es|
  {
    hide Bounds, Step, ToolTotal, OverrunsIn;
    NothingIsBounded();
    if es == [] {
      assert forall k :: 0 <= k <= |es| ==> es[..k] == [];
    } else {
      var n := |es| - 1;
      var before := es[..n];
      ToolsStayBoundedExactly(before);
      assert forall k :: 0 <= k <= n ==> before[..k] == es[..k];
      assert es[..|es|] == es;
      HistoryStaysBounded(before);
      assert Run(es) == Step(Run(before), es[n]);
      if NeverOverruns(before) {
        assert before[..n] == before;
        StepKeepsTools(Run(before), es[n]);
      } else {
        var k :| 0 <= k <= n && ToolTotal(Run(before[..k])) > TOOL_BYTES;
        assert ToolTotal(Run(es[..k])) > TOOL_BYTES;
      }
    }
  }

  /** And the condition is not an accident of special rows: any unfinished command row of any
      reachable conversation overruns when a native message of its id goes on past the room left. */
  lemma AnyOpenCommandOverruns(es: seq<Event>, i: nat, tail: string)
    requires i < |Run(es)| && Run(es)[i].role.Tool? && !Run(es)[i].status.Complete? && Run(es)[i].native.Some?
    requires Total(Run(es)) + Octets(tail) <= ALL_BYTES
    requires ToolTotal(Run(es)) <= TOOL_BYTES < ToolTotal(Run(es)) + Octets(tail)
    ensures var rows := Run(es);
            ToolTotal(Run(es + [Reread([Item(rows[i].native.value, true, rows[i].text + tail, 0, true)])])) > TOOL_BYTES
  {
    var rows := Run(es);
    var item := Item(rows[i].native.value, true, rows[i].text + tail, 0, true);
    HistoryStaysBounded(es);
    AtUnique(rows, i);
    OctetsSplit(rows[i].text, tail);
    assert Overruns(rows, item);
    ReconcileKeepsTools(rows, [item], 0, NOTHING);
    assert (es + [Reread([item])])[..|es|] == es;
    hide Octets, Total, ToolTotal, Reconcile, Bounds, Overruns;
    assert Run(es + [Reread([item])]) == Step(rows, Reread([item]));
  }

  // ----- one command -----------------------------------------------------------------------------------------------

  lemma CommandTextFits(e: Native, known: string, existing: bool)
    requires RoleOf(e).Tool?
    ensures Octets(TextOf(e, known, existing)) <= COMMAND_LIMIT
  {
    hide Octets, Bounded;
    match e
    case CommandDelta(_, delta) => BoundedFits(known + delta, COMMAND_LIMIT);
    case CommandStarted(_, heading, output) =>
      BoundedFits(if output.Some? then heading + output.value else if existing then known else heading, COMMAND_LIMIT);
    case CommandCompleted(_, heading, output, ending) =>
      var text := if output.Some? then heading + output.value else if existing then known else heading;
      BoundedFits(Bounded(text, COMMAND_LIMIT - 256) + ending, COMMAND_LIMIT);
  }

  /** Row `i` is the row of a command whose text is past the limit of one command. */
  predicate Long(rows: seq<Row>, i: nat) {
    i < |rows| && rows[i].role.Tool? && Octets(rows[i].text) > COMMAND_LIMIT
  }

  lemma SaveLengthensNone(rows: seq<Row>, operation: nat, e: Native, i: nat)
    requires Long(Save(rows, operation, e).rows, i)
    ensures Long(rows, i) && Save(rows, operation, e).rows[i].text == rows[i].text
  {
    hide Octets, Save, TextOf, Total, ToolTotal, Known;
    SaveShape(rows, operation, e);
    if RoleOf(e).Tool? {
      CommandTextFits(e, if At(rows, e.id) < 0 then "" else rows[At(rows, e.id)].text, At(rows, e.id) >= 0);
    }
  }

  lemma StepLengthens(rows: seq<Row>, e: Event, i: nat)
    requires Long(Step(rows, e), i)
    ensures i < |rows|
    ensures (Step(rows, e)[i].text == rows[i].text && Long(rows, i))
            || (e.Reread? && rows[i].text < Step(rows, e)[i].text)
  {
    hide Octets, Save, Reconcile, Total;
    match e
    case Ask(operation, text) =>
      assert i < |rows|;
    case Output(operation, native) => SaveLengthensNone(rows, operation, native, i);
    case EndTurn(operation) =>
      assert Step(rows, e) == Ended(rows, operation);
    case Reread(items) =>
      ReconcileOnlyExtends(rows, items, 0, NOTHING);
      assert Step(rows, e) == Reconcile(rows, items, 0, NOTHING).0;
  }

  /** Event `k` was a reading that lengthened row `i` to the text it still has at the end of the run. */
  predicate ReadLonger(es: seq<Event>, i: nat, k: nat)
    requires i < |Run(es)|
  {
    && k < |es| && es[k].Reread? && i < |Run(es[..k])| && i < |Run(es[..k + 1])|
    && Run(es[..k])[i].text < Run(es[..k + 1])[i].text == Run(es)[i].text
  }

  /** At every point of every run, a command's text is within 32 KiB, the cut and its notice included,
      unless a reading of the native history lengthened that very row: output alone never does. */
  lemma {:induction false} OnlyReadingsLengthen(es: seq<Event>, i: nat)
    requires Long(Run(es), i)
    ensures exists k: nat :: ReadLonger(es, i, k)
    decreases |es|
  {
    hide Step, Octets;
    assert es != [] by { assert Run([]) == []; }
    var n := |es| - 1;
    var before := es[..n];
    StepLengthens(Run(before), es[n], i);
    assert es[..n + 1] == es;
    if Run(es)[i].text == Run(before)[i].text && Long(Run(before), i) {
      OnlyReadingsLengthen(before, i);
      var k: nat :| ReadLonger(before, i, k);
      assert before[..k] == es[..k] && before[..k + 1] == es[..k + 1];
      assert ReadLonger(es, i, k);
    } else {
      assert ReadLonger(es, i, n);
    }
  }

  lemma OneCommand(text: string, status: Status)
    ensures var row := Row(Some("x"), Tool, 0, text, status);
            At([row], "x") == 0 && Total([row]) == Octets(text) == ToolTotal([row])
  {
    hide Octets;
    var row := Row(Some("x"), Tool, 0, text, status);
    assert [row][..0] == [];
  }

  lemma OneLetter()
    ensures Octets("a") == 1 && Units("a") == 1
  {
    assert "a"[1..] == "";
  }

  lemma FirstDelta()
    ensures Save([], 0, CommandDelta("x", "a")).rows == [Row(Some("x"), Tool, 0, "a", Streaming)]
  {
    hide Octets, Units;
    OneLetter();
    EmptyHasNoOctets();
    assert "" + "a" == "a";
    assert [] + [Row(Some("x"), Tool, 0, "a", Streaming)] == [Row(Some("x"), Tool, 0, "a", Streaming)];
  }

  /** One such run from the start: the first output of a command, and a message of the same id. */
  lemma ReadingACommandOverruns(text: string)
    requires "a" <= text && TOOL_BYTES < Octets(text) <= ALL_BYTES
    ensures var es := [Output(0, CommandDelta("x", "a")), Reread([Item("x", true, text, 0, true)])];
            ToolTotal(Run(es)) == Octets(text) > TOOL_BYTES
  {
    hide Octets, Units, Save, ToolTotal, Total, At;
    var first, item := Output(0, CommandDelta("x", "a")), Item("x", true, text, 0, true);
    var es := [first, Reread([item])];
    var row := Row(Some("x"), Tool, 0, "a", Streaming);
    FirstDelta();
    OneLetter();
    OneCommand("a", Streaming);
    OneCommand(text, Complete);
    assert es[..1] == [first] && [first][..0] == [];
    assert Run([]) == [];
    assert Run([first]) == [row];
    var read := row.(text := text, status := Complete);
    assert Recover([row], item, NOTHING).0 == [read];
    assert [item][1..] == [];
    assert Reconcile([row], [item], 0, NOTHING).0 == [read];
  }

  // ----- a final text is final -------------------------------------------------------------------------------------

  /** The row that the last accepted completion of an item left, if there was one. */
  function Settled(es: seq<Event>, id: string): (r: Option<Row>) {
    if es == [] then None
    else
      var before, e := es[..|es| - 1], es[|es| - 1];
      if e.Output? && e.e.id == id && Final(e.e) && Save(Run(before), e.operation, e.e).stored
      then (if At(Run(es), id) >= 0 then Some(Run(es)[At(Run(es), id)]) else None)
      else Settled(before, id)
  }

  /** A complete row of that id stands where it stood. */
  predicate Stands(rows: seq<Row>, id: string, row: Row) {
    row.native == Some(id) && row.status.Complete? && At(rows, id) >= 0 && rows[At(rows, id)] == row
  }

  lemma AppendingLetsStand(rows: seq<Row>, id: string, row: Row, more: Row)
    requires Unique(rows) && Stands(rows, id, row) && Unique(rows + [more])
    ensures Stands(rows + [more], id, row)
  {
    AtUnique(rows + [more], At(rows, id));
  }

  lemma StoringLetsStand(rows: seq<Row>, id: string, row: Row, i: int, r: Row)
    requires Unique(rows) && Stands(rows, id, row) && -1 <= i < |rows| && i != At(rows, id)
    requires r.native.Some? && r.native != Some(id) && At(rows, r.native.value) == i
    ensures Stands(Stored(rows, i, r), id, row)
  {
    if i < 0 {
      UniqueMore(rows, r);
      AppendingLetsStand(rows, id, row, r);
    } else {
      assert Unique(rows[i := r]);
      AtUnique(rows[i := r], At(rows, id));
    }
  }

  lemma NoticeLetsStand(rows: seq<Row>, id: string, row: Row, operation: nat)
    requires Unique(rows) && Stands(rows, id, row)
    ensures Stands(Notice(rows, operation), id, row)
  {
    if Notice(rows, operation) != rows {
      UniqueMore(rows, Row(Some(LIMIT_ID), System, operation, LIMIT_NOTICE, Complete));
      AppendingLetsStand(rows, id, row, Row(Some(LIMIT_ID), System, operation, LIMIT_NOTICE, Complete));
    }
  }

  /** Output lets a complete row stand unless it is another accepted completion of the same item. */
  lemma SaveLetsStand(rows: seq<Row>, id: string, row: Row, operation: nat, e: Native)
    requires Unique(rows) && Stands(rows, id, row)
    requires !(e.id == id && Final(e) && Save(rows, operation, e).stored)
    ensures Stands(Save(rows, operation, e).rows, id, row)
  {
    hide Octets, Units, TextOf, Total, ToolTotal, Stands, Notice, Unique;
    NoticeLetsStand(rows, id, row, operation);
    var s := Save(rows, operation, e);
    if s.stored {
      StandsAt(rows, id, row);
      var i := At(rows, e.id);
      var known := if i < 0 then "" else rows[i].text;
      StoringLetsStand(rows, id, row, i,
        Row(Some(e.id), RoleOf(e), operation, TextOf(e, known, i >= 0), if Final(e) then Complete else Streaming));
    }
  }

  lemma StandsAt(rows: seq<Row>, id: string, row: Row)
    requires Stands(rows, id, row)
    ensures At(rows, id) >= 0 && rows[At(rows, id)] == row && row.status.Complete? && row.native == Some(id)
  {
  }

  lemma GrowthLetsStand(a: seq<Row>, b: seq<Row>, id: string, row: Row)
    requires Grown(a, b) && Unique(b) && Stands(a, id, row)
    ensures Stands(b, id, row)
  {
    AtUnique(b, At(a, id));
  }

  lemma EndingLetsStand(rows: seq<Row>, id: string, row: Row, operation: nat)
    requires Unique(rows) && Stands(rows, id, row)
    ensures Stands(Ended(rows, operation), id, row)
  {
    AtUnique(Ended(rows, operation), At(rows, id));
  }

  lemma StepLetsStand(rows: seq<Row>, id: string, row: Row, e: Event)
    requires Bounds(rows) && Stands(rows, id, row)
    requires !(e.Output? && e.e.id == id && Final(e.e) && Save(rows, e.operation, e.e).stored)
    ensures Stands(Step(rows, e), id, row)
  {
    hide Save, Reconcile, Stands, Octets, Total, ToolTotal;
    match e
    case Ask(operation, text) =>
      UniqueMore(rows, Row(None, User, operation, text, Complete));
      AppendingLetsStand(rows, id, row, Row(None, User, operation, text, Complete));
    case Output(operation, native) => SaveLetsStand(rows, id, row, operation, native);
    case EndTurn(operation) => EndingLetsStand(rows, id, row, operation);
    case Reread(items) =>
      ReconcileOnlyExtends(rows, items, 0, NOTHING);
      ReconcileKeepsBounds(rows, items, 0, NOTHING);
      GrowthLetsStand(rows, Reconcile(rows, items, 0, NOTHING).0, id, row);
  }

  lemma AcceptedStands(rows: seq<Row>, operation: nat, e: Native)
    requires Bounds(rows) && Save(rows, operation, e).stored && Final(e)
    ensures At(Save(rows, operation, e).rows, e.id) >= 0
    ensures var row := Save(rows, operation, e).rows[At(Save(rows, operation, e).rows, e.id)];
            Stands(Save(rows, operation, e).rows, e.id, row)
              && (e.AssistantFinal? ==> row.text == e.said && row.role.Assistant?)
  {
    hide Octets, Units, Total, ToolTotal, Bounded;
    var i, s := At(rows, e.id), Save(rows, operation, e).rows;
    SaveKeepsBounds(rows, operation, e);
    if i < 0 { AtUnique(s, |rows|); } else { AtUnique(s, i); }
  }

  /** Whatever comes before or after, in whatever order, deltas, repeats and reconciliations included:
      an item whose completion was accepted keeps the row that the last accepted completion gave it. */
  lemma {:induction false} FinalTextIsFinal(es: seq<Event>, id: string)
    requires Settled(es, id).Some?
    ensures Stands(Run(es), id, Settled(es, id).value)
    decreases |es|
  {
    hide Save, Stands, Step;
    var before, e := es[..|es| - 1], es[|es| - 1];
    HistoryStaysBounded(before);
    if e.Output? && e.e.id == id && Final(e.e) && Save(Run(before), e.operation, e.e).stored {
      AcceptedStands(Run(before), e.operation, e.e);
      OutputSaves(Run(before), e.operation, e.e);
    } else {
      FinalTextIsFinal(before, id);
      StepLetsStand(Run(before), id, Settled(before, id).value, e);
    }
  }

  lemma OutputSaves(rows: seq<Row>, operation: nat, e: Native)
    ensures Step(rows, Output(operation, e)) == Save(rows, operation, e).rows
  {
  }

  /** So for an answer: its text is the one that the accepted completion carried. */
  lemma AnswerIsWhatWasSaid(es: seq<Event>, operation: nat, id: string, said: string, later: seq<Event>)
    requires Save(Run(es), operation, AssistantFinal(id, said)).stored
    requires forall e :: e in later ==> !(e.Output? && e.e.AssistantFinal? && e.e.id == id)
    ensures var rows := Run(es + [Output(operation, AssistantFinal(id, said))] + later);
            At(rows, id) >= 0 && rows[At(rows, id)].text == said && rows[At(rows, id)].status.Complete?
    decreases |later|
  {
    hide Save, Step;
    var done := es + [Output(operation, AssistantFinal(id, said))];
    HistoryStaysBounded(es);
    AcceptedStands(Run(es), operation, AssistantFinal(id, said));
    OutputSaves(Run(es), operation, AssistantFinal(id, said));
    assert done[..|es|] == es;
    var row := Run(done)[At(Run(done), id)];
    AnswerStands(done, id, row, later);
  }

  /** The end of a turn settles the messages of its operation: what they say then stays, over whatever
      comes later, unless the same item is completed once more. */
  lemma EndedTurnStands(es: seq<Event>, operation: nat, i: nat, later: seq<Event>)
    requires i < |Run(es)| && Run(es)[i].operation == operation && Run(es)[i].native.Some?
    requires forall e :: e in later ==> !(e.Output? && Final(e.e) && Some(e.e.id) == Run(es)[i].native)
    ensures Stands(Run(es + [EndTurn(operation)] + later), Run(es)[i].native.value, Run(es)[i].(status := Complete))
  {
    hide Save, Unique, Total;
    var done, id, row := es + [EndTurn(operation)], Run(es)[i].native.value, Run(es)[i].(status := Complete);
    HistoryStaysBounded(done);
    assert done[..|es|] == es;
    assert Run(done) == Ended(Run(es), operation);
    AtUnique(Run(done), i);
    RowStands(done, id, row, later);
  }

  lemma {:induction false} RowStands(done: seq<Event>, id: string, row: Row, later: seq<Event>)
    requires Stands(Run(done), id, row)
    requires forall e :: e in later ==> !(e.Output? && Final(e.e) && e.e.id == id)
    ensures Stands(Run(done + later), id, row)
    decreases |later|
  {
    hide Save, Step, Stands;
    if later == [] {
      assert done + later == done;
    } else {
      var most, e := later[..|later| - 1], later[|later| - 1];
      assert forall e :: e in most ==> e in later;
      RowStands(done, id, row, most);
      HistoryStaysBounded(done + most);
      assert (done + later)[..|done + later| - 1] == done + most && e in later;
      StepLetsStand(Run(done + most), id, row, e);
    }
  }

  lemma {:induction false} AnswerStands(done: seq<Event>, id: string, row: Row, later: seq<Event>)
    requires Stands(Run(done), id, row) && row.role.Assistant?
    requires forall e :: e in later ==> !(e.Output? && e.e.AssistantFinal? && e.e.id == id)
    ensures Stands(Run(done + later), id, row)
    decreases |later|
  {
    hide Save, Step, Stands;
    if later == [] {
      assert done + later == done;
    } else {
      var most, e := later[..|later| - 1], later[|later| - 1];
      assert forall e :: e in most ==> e in later;
      AnswerStands(done, id, row, most);
      HistoryStaysBounded(done + most);
      assert (done + later)[..|done + later| - 1] == done + most && e in later;
      if e.Output? && e.e.id == id && Final(e.e) { OtherRolesAreRefused(Run(done + most), id, row, e.operation, e.e); }
      StepLetsStand(Run(done + most), id, row, e);
    }
  }

  lemma OtherRolesAreRefused(rows: seq<Row>, id: string, row: Row, operation: nat, e: Native)
    requires Stands(rows, id, row) && row.role.Assistant? && e.id == id && e.CommandCompleted?
    ensures !Save(rows, operation, e).stored
  {
  }
}
