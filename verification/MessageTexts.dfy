/** What the stored texts say (apps/supervisor/src/conversation-output.ts): an answer is its accepted
    pieces joined in order, a command's output likewise as long as it fits, and a completed command
    ends with its status line. */
module MessageTexts {
  import opened MessageHistory

  /** The text so far of an item, nothing where it has no row. */
  function TextAt(rows: seq<Row>, id: string): (text: string) {
    if At(rows, id) < 0 then "" else rows[At(rows, id)].text
  }

  /** The item has an open row of this turn and role, or none. */
  predicate Open(rows: seq<Row>, operation: nat, id: string, role: Role) {
    && id != ""
    && (At(rows, id) >= 0 ==>
          var row := rows[At(rows, id)];
          row.operation == operation && row.role == role && !row.status.Complete?)
  }

  /** There is room for one more piece of an answer. */
  predicate TakesAnswer(rows: seq<Row>, operation: nat, id: string, piece: string) {
    && Open(rows, operation, id, Assistant)
    && Units(TextAt(rows, id) + piece) <= TEXT_UNITS && Total(rows) + Octets(piece) <= ALL_BYTES
    && (At(rows, id) < 0 ==> |rows| < COUNT)
  }

  /** There is room for one more piece of a command's output. */
  predicate TakesOutput(rows: seq<Row>, operation: nat, id: string, piece: string) {
    && Open(rows, operation, id, Tool)
    && ToolTotal(rows) + Octets(piece) <= TOOL_BYTES && Total(rows) + Octets(piece) <= ALL_BYTES
    && (At(rows, id) < 0 ==> |rows| < TOOL_COUNT)
  }

  /** `rows` with the row of the item, or one more row at the end, saying `text`. */
  predicate Says(rows: seq<Row>, operation: nat, id: string, role: Role, text: string, status: Status,
                 rows': seq<Row>) {
    rows' == if At(rows, id) < 0 then rows + [Row(Some(id), role, operation, text, status)]
             else rows[At(rows, id) := Row(Some(id), role, operation, text, status)]
  }

  /** A piece of an answer is added to the end of the text exactly when there is room. */
  lemma PieceOfAnswer(rows: seq<Row>, operation: nat, id: string, piece: string)
    ensures var s := Save(rows, operation, AssistantDelta(id, piece));
            && (s.stored <==> TakesAnswer(rows, operation, id, piece))
            && (s.stored ==> Says(rows, operation, id, Assistant, TextAt(rows, id) + piece, Streaming, s.rows))
            && (!s.stored ==> s.rows == rows)
  {
    hide Units, Total, ToolTotal, Octets;
    EmptyHasNoOctets();
    OctetsSplit(TextAt(rows, id), piece);
  }

  lemma UnitsFit(text: string)
    ensures Units(text) <= Octets(text)
  {
  }

  /** And a piece of a command's output, as long as all of it fits 32 KiB. */
  lemma PieceOfOutput(rows: seq<Row>, operation: nat, id: string, piece: string)
    requires Octets(TextAt(rows, id) + piece) <= COMMAND_LIMIT
    ensures var s := Save(rows, operation, CommandDelta(id, piece));
            && (s.stored <==> TakesOutput(rows, operation, id, piece))
            && (s.stored ==> Says(rows, operation, id, Tool, TextAt(rows, id) + piece, Streaming, s.rows))
  {
    hide Units, Total, ToolTotal, Octets, Notice;
    EmptyHasNoOctets();
    OctetsSplit(TextAt(rows, id), piece);
    UnitsFit(TextAt(rows, id) + piece);
  }

  // ----- what lets an item be ---------------------------------------------------------------------

  /** The item has no row before and after, or one of the same role, operation and text. */
  predicate Unmoved(a: seq<Row>, b: seq<Row>, id: string) {
    && (At(a, id) < 0 <==> At(b, id) < 0)
    && (At(a, id) >= 0 ==>
          && a[At(a, id)].role == b[At(b, id)].role && a[At(a, id)].operation == b[At(b, id)].operation
          && a[At(a, id)].text == b[At(b, id)].text)
  }

  lemma AppendedElsewhere(rows: seq<Row>, row: Row, id: string)
    requires Unique(rows) && row.native != Some(id)
    ensures Unmoved(rows, rows + [row], id)
  {
    assert (rows + [row])[..|rows|] == rows;
  }

  lemma UpdatedElsewhere(rows: seq<Row>, i: nat, row: Row, id: string)
    requires Unique(rows) && i < |rows| && rows[i].native == row.native && row.native != Some(id)
    ensures Unmoved(rows, rows[i := row], id)
  {
    var rows' := rows[i := row];
    if At(rows, id) >= 0 { assert rows'[At(rows, id)] == rows[At(rows, id)]; }
    if At(rows', id) >= 0 { assert rows'[At(rows', id)] == rows[At(rows', id)]; }
    if At(rows, id) >= 0 && At(rows', id) >= 0 { assert At(rows, id) == At(rows', id); }
  }

  lemma SavedElsewhere(rows: seq<Row>, operation: nat, e: Native, id: string)
    requires Unique(rows) && e.id != id && id != LIMIT_ID
    ensures Unmoved(rows, Save(rows, operation, e).rows, id)
  {
    hide Save, TextOf, Octets, Total, ToolTotal, Known, Unique;
    SaveShape(rows, operation, e);
    var s, row := Save(rows, operation, e), RowOf(rows, operation, e);
    if s.stored {
      if At(rows, e.id) < 0 { AppendedElsewhere(rows, row, id); }
      else { UpdatedElsewhere(rows, At(rows, e.id), row, id); }
    } else {
      AppendedElsewhere(rows, Row(Some(LIMIT_ID), System, operation, LIMIT_NOTICE, Complete), id);
    }
  }

  lemma RecoveredElsewhere(rows: seq<Row>, item: Item, report: Report, id: string)
    requires Bounds(rows) && item.id != id
    ensures Unmoved(rows, Recover(rows, item, report).0, id) && Bounds(Recover(rows, item, report).0)
  {
    hide Octets, Total;
    RecoverKeepsBounds(rows, item, report);
    var i, r := At(rows, item.id), Recover(rows, item, report).0;
    if r != rows {
      if i < 0 {
        AppendedElsewhere(rows, r[|rows|], id);
      } else {
        UpdatedElsewhere(rows, i, r[i], id);
      }
    }
  }

  lemma {:induction false} ReadElsewhere(rows: seq<Row>, items: seq<Item>, seen: nat, report: Report, id: string)
    requires Bounds(rows) && forall item :: item in items ==> item.id != id
    ensures Unmoved(rows, Reconcile(rows, items, seen, report).0, id)
    decreases |items|
  {
    hide Bounds, Recover;
    if items != [] && seen + 1 <= ITEMS {
      var r := Recover(rows, items[0], report);
      assert items[0] in items;
      RecoveredElsewhere(rows, items[0], report, id);
      ReadElsewhere(r.0, items[1..], seen + 1, r.1, id);
    }
  }

  lemma EndedElsewhere(rows: seq<Row>, operation: nat, id: string)
    requires Unique(rows)
    ensures Unmoved(rows, Ended(rows, operation), id)
  {
    var r := Ended(rows, operation);
    if At(rows, id) >= 0 { assert r[At(rows, id)].native == Some(id); }
    if At(r, id) >= 0 { assert rows[At(r, id)].native == Some(id); }
  }

  /** No output of that item and no reading of it. */
  predicate Elsewhere(e: Event, id: string) {
    && (e.Output? ==> e.e.id != id)
    && (e.Reread? ==> forall item :: item in e.items ==> item.id != id)
  }

  lemma StepElsewhere(rows: seq<Row>, e: Event, id: string)
    requires Bounds(rows) && Elsewhere(e, id) && id != LIMIT_ID
    ensures Unmoved(rows, Step(rows, e), id)
  {
    hide Save, Reconcile, Octets, Total, Unmoved;
    match e
    case Ask(operation, text) =>
      AppendedElsewhere(rows, Row(None, User, operation, text, Complete), id);
      StaysUnmoved(rows, id);
    case Output(operation, native) => SavedElsewhere(rows, operation, native, id);
    case EndTurn(operation) => EndedElsewhere(rows, operation, id);
    case Reread(items) => ReadElsewhere(rows, items, 0, NOTHING, id);
  }

  lemma StaysUnmoved(rows: seq<Row>, id: string)
    ensures Unmoved(rows, rows, id)
  {
  }

  // ----- an answer is what was said, piece by piece ---------------------------------------------------

  /** What one more event adds to the text of an answer. */
  function Piece(rows: seq<Row>, e: Event, id: string): (text: string) {
    if e.Output? && e.e.AssistantDelta? && e.e.id == id && TakesAnswer(rows, e.operation, id, e.e.delta)
    then e.e.delta else ""
  }

  /** The pieces of an answer that had room when they came, joined in order. */
  function Joined(es: seq<Event>, id: string, more: seq<Event>): (text: string)
    decreases |more|
  {
    if more == [] then ""
    else
      var most, e := more[..|more| - 1], more[|more| - 1];
      Joined(es, id, most) + Piece(Run(es + most), e, id)
  }

  /** A completion or a reading of the item. */
  predicate Overwrites(e: Event, id: string) {
    || (e.Output? && e.e.id == id && !e.e.AssistantDelta? && !e.e.CommandDelta?)
    || (e.Reread? && exists item :: item in e.items && item.id == id)
  }

  /** The item has an answer's row. */
  predicate Answers(rows: seq<Row>, id: string) {
    At(rows, id) >= 0 && rows[At(rows, id)].role.Assistant?
  }

  lemma PieceJoins(rows: seq<Row>, operation: nat, id: string, piece: string)
    requires Unique(rows)
    ensures var rows' := Save(rows, operation, AssistantDelta(id, piece)).rows;
            var takes := TakesAnswer(rows, operation, id, piece);
            && (takes ==> Answers(rows', id) && TextAt(rows', id) == TextAt(rows, id) + piece)
            && (takes ==> At(rows, id) < 0 || Answers(rows, id))
            && (!takes ==> rows' == rows)
  {
    hide Save, TakesAnswer, Octets, Units, Total, Says, Unique, TextAt;
    PieceOfAnswer(rows, operation, id, piece);
    if TakesAnswer(rows, operation, id, piece) {
      TakenIsOpen(rows, operation, id, piece);
      Said(rows, operation, id, Assistant, TextAt(rows, id) + piece, Streaming,
           Save(rows, operation, AssistantDelta(id, piece)).rows);
    }
  }

  lemma Said(rows: seq<Row>, operation: nat, id: string, role: Role, text: string, status: Status, rows': seq<Row>)
    requires Unique(rows) && Says(rows, operation, id, role, text, status, rows')
    ensures Unique(rows') && At(rows', id) >= 0 && TextAt(rows', id) == text
    ensures rows'[At(rows', id)] == Row(Some(id), role, operation, text, status)
  {
    assert rows'[if At(rows, id) < 0 then |rows| else At(rows, id)].native == Some(id);
  }

  lemma TakenIsOpen(rows: seq<Row>, operation: nat, id: string, piece: string)
    requires TakesAnswer(rows, operation, id, piece)
    ensures At(rows, id) < 0 || Answers(rows, id)
  {
  }

  /** A command's output does not touch an answer. */
  lemma OutputSparesAnswers(rows: seq<Row>, operation: nat, id: string, piece: string)
    requires Unique(rows) && id != LIMIT_ID
    ensures var rows' := Save(rows, operation, CommandDelta(id, piece)).rows;
            Answers(rows', id) || At(rows', id) < 0 ==> Unmoved(rows, rows', id)
  {
    hide Octets, Units, Total, ToolTotal, TextOf, Known, Save;
    var e := CommandDelta(id, piece);
    SaveShape(rows, operation, e);
    if Save(rows, operation, e).stored {
      var row := RowOf(rows, operation, e);
      Said(rows, operation, id, Tool, row.text, row.status, Save(rows, operation, e).rows);
    } else {
      AppendedElsewhere(rows, Row(Some(LIMIT_ID), System, operation, LIMIT_NOTICE, Complete), id);
    }
  }

  /** From any point of any run: as long as no completion and no reading of the item comes, the text of an
      answer is what it was and then the pieces that had room, joined in order. */
  lemma {:induction false} AnswerIsItsPieces(es: seq<Event>, id: string, more: seq<Event>)
    requires id != LIMIT_ID && forall e :: e in more ==> !Overwrites(e, id)
    ensures Answers(Run(es + more), id) || At(Run(es + more), id) < 0 ==>
              TextAt(Run(es + more), id) == TextAt(Run(es), id) + Joined(es, id, more)
    decreases |more|
  {
    hide Save, Step, TakesAnswer, Answers, TextAt, Joined, Run, Overwrites;
    if more == [] {
      assert es + more == es && Joined(es, id, more) == "" by { NothingJoined(es, id); }
      assert TextAt(Run(es), id) + "" == TextAt(Run(es), id);
    } else {
      var most, e := more[..|more| - 1], more[|more| - 1];
      assert forall e :: e in most ==> e in more;
      AnswerIsItsPieces(es, id, most);
      assert es + more == es + most + [e] && e in more;
      RunOneMore(es + most, e);
      PieceOrNot(es + most, e, id);
      OneMoreJoined(es, id, most, e);
      assert more == most + [e];
    }
  }

  lemma RunOneMore(es: seq<Event>, e: Event)
    ensures Run(es + [e]) == Step(Run(es), e)
  {
    hide Step;
    assert (es + [e])[..|es|] == es;
  }

  lemma NothingJoined(es: seq<Event>, id: string)
    ensures Joined(es, id, []) == ""
  {
  }

  lemma OneMoreJoined(es: seq<Event>, id: string, most: seq<Event>, e: Event)
    ensures Joined(es, id, most + [e]) == Joined(es, id, most) + Piece(Run(es + most), e, id)
    ensures forall text: string :: text + (Joined(es, id, most) + Piece(Run(es + most), e, id)) ==
                                   text + Joined(es, id, most) + Piece(Run(es + most), e, id)
  {
    hide TakesAnswer, Run;
    assert (most + [e])[..|most|] == most;
  }

  lemma PieceOrNot(es: seq<Event>, e: Event, id: string)
    requires id != LIMIT_ID && !Overwrites(e, id)
    ensures var rows, rows' := Run(es), Step(Run(es), e);
            Answers(rows', id) || At(rows', id) < 0 ==>
              && (Answers(rows, id) || At(rows, id) < 0)
              && TextAt(rows', id) == TextAt(rows, id) + Piece(rows, e, id)
  {
    hide Save, Step, TakesAnswer, Total, Octets, Run;
    HistoryStaysBounded(es);
    var rows := Run(es);
    assert TextAt(rows, id) + "" == TextAt(rows, id);
    if e.Output? && e.e.id == id {
      OutputSaves(rows, e.operation, e.e);
      if e.e.AssistantDelta? { PieceJoins(rows, e.operation, id, e.e.delta); }
      else { OutputSparesAnswers(rows, e.operation, id, e.e.delta); }
    } else {
      StepElsewhere(rows, e, id);
    }
  }

  // ----- a command's output ---------------------------------------------------------------------------

  /** The item has a command's row. */
  predicate Prints(rows: seq<Row>, id: string) {
    At(rows, id) >= 0 && rows[At(rows, id)].role.Tool?
  }

  /** What one more event adds to a command's output, or would add if it fitted 32 KiB. */
  function OutputPiece(rows: seq<Row>, e: Event, id: string): (text: string) {
    if e.Output? && e.e.CommandDelta? && e.e.id == id && Open(rows, e.operation, id, Tool)
       && (Octets(TextAt(rows, id) + e.e.delta) > COMMAND_LIMIT || TakesOutput(rows, e.operation, id, e.e.delta))
    then e.e.delta else ""
  }

  function Printed(es: seq<Event>, id: string, more: seq<Event>): (text: string)
    decreases |more|
  {
    if more == [] then ""
    else
      var most, e := more[..|more| - 1], more[|more| - 1];
      Printed(es, id, most) + OutputPiece(Run(es + most), e, id)
  }

  lemma NothingPrinted(es: seq<Event>, id: string)
    ensures Printed(es, id, []) == ""
  {
  }

  lemma OneMorePrinted(es: seq<Event>, id: string, most: seq<Event>, e: Event)
    ensures Printed(es, id, most + [e]) == Printed(es, id, most) + OutputPiece(Run(es + most), e, id)
    ensures forall text: string :: text + (Printed(es, id, most) + OutputPiece(Run(es + most), e, id)) ==
                                   text + Printed(es, id, most) + OutputPiece(Run(es + most), e, id)
  {
    hide OutputPiece, Run;
    assert (most + [e])[..|most|] == most;
  }

  /** A piece of an answer does not touch a command's row. */
  lemma PieceSparesOutput(rows: seq<Row>, operation: nat, id: string, piece: string)
    requires Unique(rows)
    ensures var rows' := Save(rows, operation, AssistantDelta(id, piece)).rows;
            Prints(rows', id) || At(rows', id) < 0 ==> rows' == rows
  {
    hide Octets, Units, Total, ToolTotal, Save, TakesAnswer, Says, Unique;
    PieceOfAnswer(rows, operation, id, piece);
    if Save(rows, operation, AssistantDelta(id, piece)).stored {
      Said(rows, operation, id, Assistant, TextAt(rows, id) + piece, Streaming,
           Save(rows, operation, AssistantDelta(id, piece)).rows);
    }
  }

  lemma OutputJoins(rows: seq<Row>, operation: nat, id: string, piece: string)
    requires Unique(rows) && Octets(TextAt(rows, id) + piece) <= COMMAND_LIMIT && id != LIMIT_ID
    ensures var rows' := Save(rows, operation, CommandDelta(id, piece)).rows;
            var takes := TakesOutput(rows, operation, id, piece);
            && (takes ==> Prints(rows', id) && TextAt(rows', id) == TextAt(rows, id) + piece)
            && (takes ==> Open(rows, operation, id, Tool) && (At(rows, id) < 0 || Prints(rows, id)))
            && (!takes ==> Unmoved(rows, rows', id))
  {
    hide Save, Octets, Units, Total, ToolTotal, Says, Unique, TextAt, TextOf, Known, Unmoved;
    PieceOfOutput(rows, operation, id, piece);
    var e := CommandDelta(id, piece);
    if TakesOutput(rows, operation, id, piece) {
      Said(rows, operation, id, Tool, TextAt(rows, id) + piece, Streaming, Save(rows, operation, e).rows);
    } else {
      SaveShape(rows, operation, e);
      AppendedElsewhere(rows, Row(Some(LIMIT_ID), System, operation, LIMIT_NOTICE, Complete), id);
      StaysUnmoved(rows, id);
    }
  }

  lemma OutputOrNot(es: seq<Event>, e: Event, id: string)
    requires id != LIMIT_ID && !Overwrites(e, id)
    requires Octets(TextAt(Run(es), id) + OutputPiece(Run(es), e, id)) <= COMMAND_LIMIT
    ensures var rows, rows' := Run(es), Step(Run(es), e);
            Prints(rows', id) || At(rows', id) < 0 ==>
              && (Prints(rows, id) || At(rows, id) < 0)
              && TextAt(rows', id) == TextAt(rows, id) + OutputPiece(rows, e, id)
  {
    hide Save, Step, Total, ToolTotal, Octets, Run;
    HistoryStaysBounded(es);
    var rows := Run(es);
    assert TextAt(rows, id) + "" == TextAt(rows, id);
    if e.Output? && e.e.id == id {
      OutputSaves(rows, e.operation, e.e);
      if e.e.AssistantDelta? { PieceSparesOutput(rows, e.operation, id, e.e.delta); }
      else if Octets(TextAt(rows, id) + e.e.delta) <= COMMAND_LIMIT { OutputJoins(rows, e.operation, id, e.e.delta); }
      else { NotOpen(rows, e.operation, id, e.e.delta); }
    } else {
      StepElsewhere(rows, e, id);
    }
  }

  /** Output for a row that is not open is not stored. */
  lemma NotOpen(rows: seq<Row>, operation: nat, id: string, piece: string)
    requires !Open(rows, operation, id, Tool) && Unique(rows) && id != LIMIT_ID
    ensures Unmoved(rows, Save(rows, operation, CommandDelta(id, piece)).rows, id)
  {
    hide Octets, Units, Total, ToolTotal, TextOf;
  }

  /** A row that is no command's does not become one. */
  lemma StaysForeign(es: seq<Event>, e: Event, id: string)
    requires id != LIMIT_ID && !Overwrites(e, id) && At(Run(es), id) >= 0 && !Prints(Run(es), id)
    ensures At(Step(Run(es), e), id) >= 0 && !Prints(Step(Run(es), e), id)
  {
    hide Save, Step, Total, ToolTotal, Octets, Run;
    HistoryStaysBounded(es);
    var rows := Run(es);
    if e.Output? && e.e.id == id {
      OutputSaves(rows, e.operation, e.e);
      if e.e.AssistantDelta? { PieceJoins(rows, e.operation, id, e.e.delta); }
      else { NotOpen(rows, e.operation, id, e.e.delta); }
    } else {
      StepElsewhere(rows, e, id);
    }
  }

  /** From any point of any run: as long as no start, no completion and no reading of the item comes, and
      all of it fits 32 KiB, a command's text is what it was and then the output that had room. */
  lemma {:induction false} CommandIsItsPieces(es: seq<Event>, id: string, more: seq<Event>)
    requires id != LIMIT_ID && forall e :: e in more ==> !Overwrites(e, id)
    requires Octets(TextAt(Run(es), id) + Printed(es, id, more)) <= COMMAND_LIMIT
    ensures Prints(Run(es + more), id) || At(Run(es + more), id) < 0 ==>
              TextAt(Run(es + more), id) == TextAt(Run(es), id) + Printed(es, id, more)
    ensures Prints(Run(es + more), id) || At(Run(es + more), id) < 0 ==> Prints(Run(es), id) || At(Run(es), id) < 0
    decreases |more|
  {
    hide Save, Step, Prints, TextAt, Printed, Run, Overwrites, OutputPiece, Octets;
    if more == [] {
      assert es + more == es && Printed(es, id, more) == "" by { NothingPrinted(es, id); }
      assert TextAt(Run(es), id) + "" == TextAt(Run(es), id);
    } else {
      var most, e := more[..|more| - 1], more[|more| - 1];
      assert forall e :: e in most ==> e in more;
      assert more == most + [e] && es + more == es + most + [e] && e in more;
      OneMorePrinted(es, id, most, e);
      var before := TextAt(Run(es), id) + Printed(es, id, most);
      assert before <= before + OutputPiece(Run(es + most), e, id);
      LongerIsMore(before, before + OutputPiece(Run(es + most), e, id));
      CommandIsItsPieces(es, id, most);
      RunOneMore(es + most, e);
      if Prints(Run(es + most), id) || At(Run(es + most), id) < 0 { OutputOrNot(es + most, e, id); }
      else { StaysForeign(es + most, e, id); }
    }
  }

  // ----- starts, completions and cuts -------------------------------------------------------------------

  /** What a start or completion of a command brings: its output, else the text so far, else the heading. */
  function Base(rows: seq<Row>, id: string, heading: string, output: Option<string>): (text: string) {
    if output.Some? then heading + output.value else if At(rows, id) < 0 then heading else TextAt(rows, id)
  }

  /** The completion of an answer is accepted exactly when the item is its own or new and there is room. */
  predicate TakesCompletion(rows: seq<Row>, operation: nat, id: string, said: string) {
    && id != ""
    && (At(rows, id) >= 0 ==> rows[At(rows, id)].operation == operation && rows[At(rows, id)].role.Assistant?)
    && Units(said) <= TEXT_UNITS && Total(rows) - Octets(TextAt(rows, id)) + Octets(said) <= ALL_BYTES
    && (At(rows, id) < 0 ==> |rows| < COUNT)
  }

  lemma CompletionTaken(rows: seq<Row>, operation: nat, id: string, said: string)
    ensures Save(rows, operation, AssistantFinal(id, said)).stored <==> TakesCompletion(rows, operation, id, said)
  {
    hide Units, Total, ToolTotal, Octets, TextOf, Notice;
    FinalText(id, said, TextAt(rows, id), At(rows, id) >= 0);
  }

  /** It leaves what was said, complete. */
  lemma AnswerCompletes(rows: seq<Row>, operation: nat, id: string, said: string)
    ensures var s := Save(rows, operation, AssistantFinal(id, said));
            && (s.stored <==> TakesCompletion(rows, operation, id, said))
            && (s.stored ==> Says(rows, operation, id, Assistant, said, Complete, s.rows))
            && (!s.stored ==> s.rows == rows)
  {
    hide Units, Total, ToolTotal, Octets, TextOf, Notice, TakesCompletion;
    CompletionTaken(rows, operation, id, said);
    FinalText(id, said, TextAt(rows, id), At(rows, id) >= 0);
  }

  lemma FinalText(id: string, said: string, known: string, existing: bool)
    ensures TextOf(AssistantFinal(id, said), known, existing) == said
  {
  }

  lemma CommandStarts(rows: seq<Row>, operation: nat, id: string, heading: string, output: Option<string>)
    requires Save(rows, operation, CommandStarted(id, heading, output)).stored
    requires Octets(Base(rows, id, heading, output)) <= COMMAND_LIMIT
    ensures Says(rows, operation, id, Tool, Base(rows, id, heading, output), Streaming,
                 Save(rows, operation, CommandStarted(id, heading, output)).rows)
  {
    hide Units, Total, ToolTotal, Octets, Notice;
  }

  /** An accepted completion of a command ends with its status line, after all of its output if that
      leaves 256 bytes of the 32 KiB. */
  lemma CommandCompletes(rows: seq<Row>, operation: nat, id: string, heading: string, output: Option<string>,
          ending: string)
    returns (kept: string)
    requires Save(rows, operation, CommandCompleted(id, heading, output, ending)).stored && Octets(ending) <= 256
    ensures Says(rows, operation, id, Tool, kept + ending, Complete,
                 Save(rows, operation, CommandCompleted(id, heading, output, ending)).rows)
    ensures Octets(kept) <= COMMAND_LIMIT - 256
    ensures Octets(Base(rows, id, heading, output)) <= COMMAND_LIMIT - 256 ==> kept == Base(rows, id, heading, output)
  {
    hide Units, Total, ToolTotal, Octets, Notice, Cut;
    kept := Bounded(Base(rows, id, heading, output), COMMAND_LIMIT - 256);
    BoundedFits(Base(rows, id, heading, output), COMMAND_LIMIT - 256);
    OctetsSplit(kept, ending);
  }

  /** What one output means for the messages: pieces are joined while they have room, a completion leaves
      what was said or, for a command, ends with its status line. */
  ghost predicate Means(rows: seq<Row>, operation: nat, e: Native, stored: bool, rows': seq<Row>) {
    match e
    case AssistantDelta(id, piece) =>
      && (stored <==> TakesAnswer(rows, operation, id, piece)) && (!stored ==> rows' == rows)
      && (stored ==> Says(rows, operation, id, Assistant, TextAt(rows, id) + piece, Streaming, rows'))
    case AssistantFinal(id, said) =>
      && (stored <==> TakesCompletion(rows, operation, id, said)) && (!stored ==> rows' == rows)
      && (stored ==> Says(rows, operation, id, Assistant, said, Complete, rows'))
    case CommandDelta(id, piece) =>
      Octets(TextAt(rows, id) + piece) <= COMMAND_LIMIT ==>
        && (stored <==> TakesOutput(rows, operation, id, piece))
        && (stored ==> Says(rows, operation, id, Tool, TextAt(rows, id) + piece, Streaming, rows'))
    case CommandStarted(id, heading, output) =>
      stored && Octets(Base(rows, id, heading, output)) <= COMMAND_LIMIT ==>
        Says(rows, operation, id, Tool, Base(rows, id, heading, output), Streaming, rows')
    case CommandCompleted(id, heading, output, ending) =>
      stored && Octets(ending) <= 256 ==>
        exists kept :: Says(rows, operation, id, Tool, kept + ending, Complete, rows')
  }

  lemma SavingMeans(rows: seq<Row>, operation: nat, e: Native)
    ensures var s := Save(rows, operation, e); Means(rows, operation, e, s.stored, s.rows)
  {
    hide Save, TakesAnswer, TakesCompletion, TakesOutput, Says, Octets, Base;
    match e
    case AssistantDelta(id, piece) => PieceOfAnswer(rows, operation, id, piece);
    case AssistantFinal(id, said) => AnswerCompletes(rows, operation, id, said);
    case CommandDelta(id, piece) =>
      if Octets(TextAt(rows, id) + piece) <= COMMAND_LIMIT { PieceOfOutput(rows, operation, id, piece); }
    case CommandStarted(id, heading, output) =>
      if Save(rows, operation, e).stored && Octets(Base(rows, id, heading, output)) <= COMMAND_LIMIT {
        CommandStarts(rows, operation, id, heading, output);
      }
    case CommandCompleted(id, heading, output, ending) =>
      if Save(rows, operation, e).stored && Octets(ending) <= 256 {
        var kept := CommandCompletes(rows, operation, id, heading, output, ending);
      }
  }

  /** A cut text is the longest beginning that fits, and a replacement character if a byte is left over. */
  lemma {:induction false} CutIsLongest(text: string, n: nat) returns (k: nat)
    ensures k <= |text| && Octets(text[..k]) <= n && (k < |text| ==> n < Octets(text[..k + 1]))
    ensures Cut(text, n) == text[..k] + if k < |text| && Octets(text[..k]) < n then ['\U{FFFD}'] else []
    decreases |text|
  {
    if text == [] || n == 0 || Width(text[0]) > n {
      k := 0;
      if text != [] { assert text[..1][1..] == []; }
    } else {
      var rest := CutIsLongest(text[1..], n - Width(text[0]));
      k := rest + 1;
      assert text[..k][1..] == text[1..][..rest];
      if k < |text| { assert text[..k + 1][1..] == text[1..][..rest + 1]; }
    }
  }

  /** A text that fits is kept, and one that does not is cut a hundred bytes earlier and says so. */
  lemma TooLongIsCut(text: string, limit: nat) returns (k: nat)
    requires limit >= 100
    ensures Octets(text) <= limit ==> Bounded(text, limit) == text
    ensures Octets(text) > limit ==>
              && k < |text| && Octets(text[..k]) <= limit - 100 < Octets(text[..k + 1])
              && Bounded(text, limit) ==
                 text[..k] + (if Octets(text[..k]) < limit - 100 then ['\U{FFFD}'] else []) + CUT_NOTICE
  {
    hide Octets, Cut;
    k := CutIsLongest(text, limit - 100);
    assert text[..|text|] == text;
  }

  // ----- refusals and reports ---------------------------------------------------------------------------

  /** A piece of output that finds no room leaves the notice that output is omitted, once and if that has
      room, and nothing else. */
  lemma OmittedOutput(rows: seq<Row>, operation: nat, id: string, piece: string)
    requires Open(rows, operation, id, Tool) && Octets(TextAt(rows, id) + piece) <= COMMAND_LIMIT
    requires !TakesOutput(rows, operation, id, piece)
    ensures Save(rows, operation, CommandDelta(id, piece)).rows ==
            if At(rows, LIMIT_ID) < 0 && |rows| < COUNT && Total(rows) + Octets(LIMIT_NOTICE) <= ALL_BYTES
            then rows + [Row(Some(LIMIT_ID), System, operation, LIMIT_NOTICE, Complete)] else rows
  {
    hide Units, Total, ToolTotal, Octets, Says;
    PieceOfOutput(rows, operation, id, piece);
    OutputWithoutRoom(rows, operation, id, piece);
  }

  lemma OutputWithoutRoom(rows: seq<Row>, operation: nat, id: string, piece: string)
    requires Open(rows, operation, id, Tool) && !Save(rows, operation, CommandDelta(id, piece)).stored
    requires Octets(TextAt(rows, id) + piece) <= COMMAND_LIMIT
    ensures Save(rows, operation, CommandDelta(id, piece)).rows == Notice(rows, operation)
  {
    hide Units, Total, ToolTotal, Octets, Notice;
    UnitsFit(TextAt(rows, id) + piece);
  }

  /** A message of the native history that differs from what is stored: from a complete row, or from what
      an unfinished row begins with. */
  predicate Conflicts(rows: seq<Row>, item: Item) {
    && item.speech && At(rows, item.id) >= 0
    && var row := rows[At(rows, item.id)];
       if row.status.Complete? then row.text != item.text else !(row.text <= item.text)
  }

  /** A message that is new or goes on where an unfinished row ends. */
  predicate Continues(rows: seq<Row>, item: Item) {
    && item.speech
    && (At(rows, item.id) >= 0 ==>
          !rows[At(rows, item.id)].status.Complete? && rows[At(rows, item.id)].text <= item.text)
  }

  predicate HasRoom(rows: seq<Row>, item: Item) {
    Total(rows) - Octets(TextAt(rows, item.id)) + Octets(item.text) <= ALL_BYTES
    && (At(rows, item.id) < 0 ==> |rows| < COUNT)
  }

  /** What one message of the history comes to: a conflict is counted and nothing written; one that
      continues is written whole and counted as repaired, or the report is marked as truncated. */
  lemma ReadingReports(rows: seq<Row>, item: Item, report: Report)
    ensures Conflicts(rows, item) ==>
              Recover(rows, item, report) == (rows, report.(conflicts := report.conflicts + 1))
    ensures Continues(rows, item) && !HasRoom(rows, item) ==>
              Recover(rows, item, report) == (rows, report.(truncated := true))
    ensures !Conflicts(rows, item) && !Continues(rows, item) ==> Recover(rows, item, report) == (rows, report)
    ensures Continues(rows, item) && HasRoom(rows, item) ==>
              var (rows', report') := Recover(rows, item, report);
              && report' == report.(repaired := report.repaired + 1)
              && Says(rows,
                      if At(rows, item.id) < 0 then item.operation else rows[At(rows, item.id)].operation, item.id,
                      if At(rows, item.id) < 0 then Assistant else rows[At(rows, item.id)].role, item.text,
                      if item.whole then Complete else Recovered, rows')
  {
    hide Total, Octets;
    EmptyHasNoOctets();
  }

  /** At most 2000 messages of the history are read; one more marks the report as truncated. */
  lemma {:induction false} ReadingStops(rows: seq<Row>, items: seq<Item>, seen: nat, report: Report)
    requires seen <= ITEMS
    ensures seen + |items| > ITEMS ==>
              && Reconcile(rows, items, seen, report).0 == Reconcile(rows, items[..ITEMS - seen], seen, report).0
              && Reconcile(rows, items, seen, report).1 ==
                 Reconcile(rows, items[..ITEMS - seen], seen, report).1.(truncated := true)
    decreases |items|
  {
    hide Recover;
    if items != [] && seen < ITEMS {
      var r := Recover(rows, items[0], report);
      ReadingStops(r.0, items[1..], seen + 1, r.1);
      if seen + |items| > ITEMS {
        assert items[..ITEMS - seen][1..] == items[1..][..ITEMS - seen - 1] && items[..ITEMS - seen][0] == items[0];
      }
    } else if items != [] {
      assert items[..0] == [];
    }
  }

  /** A question is kept exactly when it has room. */
  lemma QuestionIsKept(rows: seq<Row>, operation: nat, text: string)
    ensures Step(rows, Ask(operation, text)) ==
            if Total(rows) + Octets(text) <= ALL_BYTES && |rows| < COUNT
            then rows + [Row(None, User, operation, text, Complete)] else rows
  {
    hide Total, Octets;
  }

  // ----- sizes ---------------------------------------------------------------------------------------------

  /** The code points that UTF-8 writes in at most `n` bytes end here (RFC 3629, section 3). */
  function Reach(n: nat): (end: nat)
    requires n <= 4
  {
    [0, 0x80, 0x800, 0x10000, 0x110000][n]
  }

  lemma WidthExactly(c: char)
    ensures Reach(Width(c) - 1) <= c as int < Reach(Width(c))
    ensures Octets([c]) == Width(c) && Units([c]) == if c as int < 0x10000 then 1 else 2
  {
    assert [c][1..] == [];
  }

  lemma {:induction false} UnitsSplit(a: string, b: string)
    ensures Units(a + b) == Units(a) + Units(b)
    decreases |a|
  {
    if a == [] {
      assert a + b == b;
    } else {
      UnitsSplit(a[1..], b);
      assert (a + b)[1..] == a[1..] + b;
    }
  }
}
