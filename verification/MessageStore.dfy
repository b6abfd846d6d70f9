/** The same messages as the programs change them: `saveConversationOutput`
    (apps/supervisor/src/conversation-output.ts) and the loops of `reconcileNative`
    (apps/supervisor/src/recovery.ts) with their running counts. */
module MessageStore {
  import opened MessageHistory
  import opened MessageTexts

  datatype Spoken = Spoken(id: string, speech: bool, text: string)

  /** A native turn; its operation was looked up by the turn's id. */
  datatype Turn = Turn(operation: nat, completed: bool, items: seq<Spoken>)

  function ItemsOf(turn: Turn): (items: seq<Item>)
    ensures |items| == |turn.items|
  {
    seq(|turn.items|, i requires 0 <= i < |turn.items| =>
      Item(turn.items[i].id, turn.items[i].speech, turn.items[i].text, turn.operation, turn.completed))
  }

  function AllItems(turns: seq<Turn>): (items: seq<Item>) {
    if turns == [] then [] else ItemsOf(turns[0]) + AllItems(turns[1..])
  }

  class Conversation {
    var rows: seq<Row>

    constructor ()
      ensures rows == [] && Bounds(rows)
    {
      rows := [];
      NothingIsBounded();
    }

    /** True when the event was stored; a thrown error leaves the rows alone. */
    method SaveConversationOutput(operation: nat, e: Native) returns (stored: bool)
      requires Bounds(rows)
      modifies this
      ensures Bounds(rows) && Means(old(rows), operation, e, stored, rows)
      ensures rows == Save(old(rows), operation, e).rows && stored == Save(old(rows), operation, e).stored
    {
      hide *;
      SavingMeans(rows, operation, e);
      stored := Saving(operation, e);
    }

    method Saving(operation: nat, e: Native) returns (stored: bool)
      requires Bounds(rows)
      modifies this
      ensures Bounds(rows)
      ensures rows == Save(old(rows), operation, e).rows && stored == Save(old(rows), operation, e).stored
    {
      hide Octets, Units, TextOf, Bounds, Total, ToolTotal;
      SaveKeepsBounds(rows, operation, e);
      EmptyHasNoOctets();
      if e.id == "" { return false; }
      var i := At(rows, e.id);
      if i >= 0 && (rows[i].operation != operation || rows[i].role != RoleOf(e)) { return false; }
      if i >= 0 && rows[i].status.Complete? && !Final(e) { return false; }
      var known := if i < 0 then "" else rows[i].text;
      var text := TextOf(e, known, i >= 0);
      var bytes := Total(rows) - Octets(known) + Octets(text);
      if RoleOf(e).Tool? {
        var tool := ToolTotal(rows) - Octets(known) + Octets(text);
        if tool > TOOL_BYTES || bytes > ALL_BYTES || (i < 0 && |rows| >= TOOL_COUNT) {
          rows := Notice(rows, operation);
          return false;
        }
      }
      if Units(text) > TEXT_UNITS || bytes > ALL_BYTES || (i < 0 && |rows| >= COUNT) { return false; }
      rows := Stored(rows, i, Row(Some(e.id), RoleOf(e), operation, text, if Final(e) then Complete else Streaming));
      stored := true;
    }

    /** The statement at the end of a turn (apps/supervisor/src/main.ts). */
    method EndTurn(operation: nat)
      requires Bounds(rows)
      modifies this
      ensures rows == Ended(old(rows), operation) && Bounds(rows)
      ensures Total(rows) == Total(old(rows)) && ToolTotal(rows) == ToolTotal(old(rows))
    {
      EndingKeepsBounds(rows, operation);
      EndedTotals(rows, operation);
      rows := Ended(rows, operation);
    }

    /** One item; `bytes` and `count` are carried along instead of being asked for again. */
    method RecoverItem(item: Item, report: Report, bytes: nat, count: nat)
      returns (report': Report, bytes': nat, count': nat)
      requires bytes == Total(rows) && count == |rows|
      modifies this
      ensures (rows, report') == Recover(old(rows), item, report)
      ensures bytes' == Total(rows) && count' == |rows|
    {
      hide Octets, Total;
      report', bytes', count' := report, bytes, count;
      if !item.speech { return; }
      var i := At(rows, item.id);
      if i >= 0 && rows[i].status.Complete? {
        if rows[i].text != item.text { report' := report.(conflicts := report.conflicts + 1); }
        return;
      }
      if i >= 0 && !(rows[i].text <= item.text) {
        report' := report.(conflicts := report.conflicts + 1);
        return;
      }
      var extra := Octets(item.text) - if i < 0 then 0 else Octets(rows[i].text);
      if bytes + extra > ALL_BYTES || (i < 0 && count >= COUNT) {
        report' := report.(truncated := true);
        return;
      }
      var status := if item.whole then Complete else Recovered;
      if i < 0 {
        TotalsMore(rows, Row(Some(item.id), Assistant, item.operation, item.text, status));
        rows := rows + [Row(Some(item.id), Assistant, item.operation, item.text, status)];
        count' := count + 1;
      } else {
        TotalAt(rows, i, rows[i].(text := item.text, status := status));
        rows := rows[i := rows[i].(text := item.text, status := status)];
      }
      bytes' := bytes + extra;
      report' := report.(repaired := report.repaired + 1);
    }

    method ReconcileNative(turns: seq<Turn>) returns (report: Report)
      requires Bounds(rows)
      modifies this
      ensures (rows, report) == Reconcile(old(rows), AllItems(turns), 0, NOTHING)
      ensures Bounds(rows) && Grown(old(rows), rows)
    {
      hide Bounds, Grown, Recover, Total, Octets;
      ReconcileKeepsBounds(rows, AllItems(turns), 0, NOTHING);
      ReconcileOnlyExtends(rows, AllItems(turns), 0, NOTHING);
      ghost var outcome := Reconcile(rows, AllItems(turns), 0, NOTHING);
      var bytes, count, items := Total(rows), |rows|, 0;
      report := NOTHING;
      var t := 0;
      assert turns[0..] == turns;
      while t < |turns|
        invariant t <= |turns| && bytes == Total(rows) && count == |rows|
        invariant outcome == Reconcile(rows, AllItems(turns[t..]), items, report)
      {
        var i := 0;
        ghost var of, later := ItemsOf(turns[t]), AllItems(turns[t + 1..]);
        assert turns[t..][0] == turns[t] && turns[t..][1..] == turns[t + 1..];
        assert of[0..] == of;
        while i < |turns[t].items|
          invariant i <= |turns[t].items| == |of| && bytes == Total(rows) && count == |rows|
          invariant outcome == Reconcile(rows, of[i..] + later, items, report)
        {
          assert (of[i..] + later)[0] == of[i] && (of[i..] + later)[1..] == of[i + 1..] + later;
          items := items + 1;
          if items > ITEMS {
            report := report.(truncated := true);
            return;
          }
          var spoken := turns[t].items[i];
          report, bytes, count :=
            RecoverItem(Item(spoken.id, spoken.speech, spoken.text, turns[t].operation, turns[t].completed), report,
                        bytes, count);
          i := i + 1;
        }
        assert of[i..] + later == later;
        t := t + 1;
      }
      assert turns[t..] == [];
    }
  }
}
