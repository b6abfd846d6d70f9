/** The rolling budget of a preview stream (infra/previews/protocol.ts). */
module StreamBudget {

  datatype Row = Row(at: int, bytes: nat)

  const WINDOW := 60000
  const ROWS := 4096
  const BYTES := 2097152

  function Sum(rows: seq<Row>): (n: nat) {
    if rows == [] then 0 else Sum(rows[..|rows| - 1]) + rows[|rows| - 1].bytes
  }

  lemma SumSplits(a: seq<Row>, b: seq<Row>)
    ensures Sum(a + b) == Sum(a) + Sum(b)
    decreases |b|
  {
    if b == [] {
      assert a + b == a;
    } else {
      SumSplits(a, b[..|b| - 1]);
      assert (a + b)[..|a + b| - 1] == a + b[..|b| - 1];
    }
  }

  /** Rows older than the window leave from the front. */
  function Pruned(rows: seq<Row>, now: int): (r: seq<Row>) {
    if rows != [] && rows[0].at <= now - WINDOW then Pruned(rows[1..], now) else rows
  }

  predicate Fits(rows: seq<Row>, count: nat) {
    |rows| < ROWS && Sum(rows) + count <= BYTES
  }

  /** One call: the rows kept, and whether it was accepted. A refusal keeps the pruning. */
  function Taken(rows: seq<Row>, call: Row): (r: (seq<Row>, bool)) {
    var kept := Pruned(rows, call.at);
    if Fits(kept, call.bytes) then (kept + [call], true) else (kept, false)
  }

  function RowsAfter(calls: seq<Row>): (rows: seq<Row>) {
    if calls == [] then [] else Taken(RowsAfter(calls[..|calls| - 1]), calls[|calls| - 1]).0
  }

  /** The calls that were accepted, in order. */
  function Accepted(calls: seq<Row>): (rows: seq<Row>) {
    if calls == [] then []
    else
      var before, call := calls[..|calls| - 1], calls[|calls| - 1];
      Accepted(before) + if Taken(RowsAfter(before), call).1 then [call] else []
  }

  predicate Ordered(calls: seq<Row>) {
    forall i, j :: 0 <= i < j < |calls| ==> calls[i].at <= calls[j].at
  }

  function Within(rows: seq<Row>, start: int): (r: seq<Row>) {
    if rows == [] then []
    else
      var last := rows[|rows| - 1];
      Within(rows[..|rows| - 1], start) + if start <= last.at < start + WINDOW then [last] else []
  }

  // ----- the window ---------------------------------------------------------------------------

  lemma PrunedIsSuffix(rows: seq<Row>, now: int)
    ensures |Pruned(rows, now)| <= |rows|
    ensures Pruned(rows, now) == rows[|rows| - |Pruned(rows, now)|..]
    ensures forall i :: 0 <= i < |rows| - |Pruned(rows, now)| ==> rows[i].at <= now - WINDOW
    decreases |rows|
  {
    if rows != [] && rows[0].at <= now - WINDOW { PrunedIsSuffix(rows[1..], now); }
  }

  lemma WithinSplits(a: seq<Row>, b: seq<Row>, start: int)
    ensures Within(a + b, start) == Within(a, start) + Within(b, start)
    decreases |b|
  {
    if b == [] {
      assert a + b == a && Within(a, start) + [] == Within(a, start);
    } else {
      WithinSplits(a, b[..|b| - 1], start);
      assert (a + b)[..|a + b| - 1] == a + b[..|b| - 1];
    }
  }

  lemma WithinIsLess(rows: seq<Row>, start: int)
    ensures |Within(rows, start)| <= |rows| && Sum(Within(rows, start)) <= Sum(rows)
    decreases |rows|
  {
    if rows != [] {
      var last := rows[|rows| - 1];
      WithinIsLess(rows[..|rows| - 1], start);
      if start <= last.at < start + WINDOW {
        SumSplits(Within(rows[..|rows| - 1], start), [last]);
        assert [last][..0] == [];
      } else {
        assert Within(rows[..|rows| - 1], start) + [] == Within(rows[..|rows| - 1], start);
      }
    }
  }

  lemma NothingBefore(rows: seq<Row>, start: int)
    requires forall i :: 0 <= i < |rows| ==> rows[i].at < start
    ensures Within(rows, start) == []
    decreases |rows|
  {
    if rows != [] { NothingBefore(rows[..|rows| - 1], start); }
  }

  lemma TakenSplits(rows: seq<Row>, call: Row) returns (left: seq<Row>)
    requires |rows| <= ROWS && Sum(rows) <= BYTES
    ensures rows == left + Pruned(rows, call.at)
    ensures forall i :: 0 <= i < |left| ==> left[i].at <= call.at - WINDOW
    ensures Taken(rows, call).0 == Pruned(rows, call.at) + if Taken(rows, call).1 then [call] else []
    ensures |Taken(rows, call).0| <= ROWS && Sum(Taken(rows, call).0) <= BYTES
  {
    var kept := Pruned(rows, call.at);
    PrunedIsSuffix(rows, call.at);
    left := rows[..|rows| - |kept|];
    assert rows == left + kept;
    SumSplits(left, kept);
    SumSplits(kept, [call]);
    assert [call][..0] == [] && kept + [] == kept;
  }

  /** The rows kept are the last of the accepted calls; the others had left the window. */
  lemma {:induction false} RowsAreRecent(calls: seq<Row>) returns (gone: seq<Row>)
    requires Ordered(calls)
    ensures Accepted(calls) == gone + RowsAfter(calls)
    ensures calls != [] ==> forall i :: 0 <= i < |gone| ==> gone[i].at <= calls[|calls| - 1].at - WINDOW
    ensures calls == [] ==> gone == []
    ensures |RowsAfter(calls)| <= ROWS && Sum(RowsAfter(calls)) <= BYTES
    decreases |calls|
  {
    hide Pruned, Taken, Sum;
    gone := [];
    if calls != [] {
      var before, call := calls[..|calls| - 1], calls[|calls| - 1];
      var earlier := RowsAreRecent(before);
      var left := TakenSplits(RowsAfter(before), call);
      gone := earlier + left;
      var kept, tail := Pruned(RowsAfter(before), call.at), if Taken(RowsAfter(before), call).1 then [call] else [];
      assert earlier + (left + kept) + tail == gone + (kept + tail);
      assert before != [] ==> before[|before| - 1] == calls[|calls| - 2];
    } else {
      NothingTaken();
    }
  }

  lemma NothingTaken()
    ensures Accepted([]) == [] && RowsAfter([]) == [] && Sum([]) == 0
  {
  }

  /** Under a clock that never goes back, no half-open minute, wherever it is placed, sees more
      than 2 MiB or 4096 entries accepted. */
  lemma {:induction false} NoMinuteOverruns(calls: seq<Row>, start: int)
    requires Ordered(calls)
    ensures |Within(Accepted(calls), start)| <= ROWS && Sum(Within(Accepted(calls), start)) <= BYTES
    decreases |calls|
  {
    if calls != [] {
      var before, call := calls[..|calls| - 1], calls[|calls| - 1];
      NoMinuteOverruns(before, start);
      var gone := RowsAreRecent(calls);
      if start <= call.at < start + WINDOW {
        WithinSplits(gone, RowsAfter(calls), start);
        NothingBefore(gone, start);
        assert [] + Within(RowsAfter(calls), start) == Within(RowsAfter(calls), start);
        WithinIsLess(RowsAfter(calls), start);
      } else if Taken(RowsAfter(before), call).1 {
        WithinSplits(Accepted(before), [call], start);
        assert [call][..0] == [] && Within([call], start) == [];
        assert Within(Accepted(before), start) + [] == Within(Accepted(before), start);
      } else {
        assert Accepted(calls) == Accepted(before);
      }
    }
  }

  /** And no call is refused without need: one that is refused would overrun the minute it ends. */
  lemma RefusalIsNeeded(calls: seq<Row>, call: Row)
    requires Ordered(calls + [call]) && !Taken(RowsAfter(calls), call).1
    ensures var recent := Within(Accepted(calls), call.at - WINDOW + 1);
            |recent| >= ROWS || Sum(recent) + call.bytes > BYTES
  {
    hide Pruned, Within, Accepted, RowsAfter, Sum;
    LastIsLatest(calls, call);
    NothingTaken();
    var gone := RowsAreRecent(calls);
    AcceptedInOrder(calls);
    RecentAreKept(Accepted(calls), gone, RowsAfter(calls), call.at);
  }

  lemma LastIsLatest(calls: seq<Row>, call: Row)
    requires Ordered(calls + [call])
    ensures Ordered(calls) && (calls != [] ==> calls[|calls| - 1].at <= call.at)
  {
    assert forall i :: 0 <= i < |calls| ==> (calls + [call])[i] == calls[i];
    assert (calls + [call])[|calls|] == call;
  }

  lemma RecentAreKept(accepted: seq<Row>, gone: seq<Row>, rows: seq<Row>, now: int)
    requires accepted == gone + rows && Ordered(accepted)
    requires forall i :: 0 <= i < |gone| ==> gone[i].at <= now - WINDOW
    requires forall i :: 0 <= i < |accepted| ==> accepted[i].at <= now
    ensures Within(accepted, now - WINDOW + 1) == Pruned(rows, now)
  {
    hide Within;
    var kept := Pruned(rows, now);
    var start := now - WINDOW + 1;
    PrunedIsSuffix(rows, now);
    HeadIsRecent(rows, now);
    var left := gone + rows[..|rows| - |kept|];
    assert accepted == left + kept;
    WithinSplits(left, kept, start);
    NothingBefore(left, start);
    forall i | 0 <= i < |kept|
      ensures start <= kept[i].at < start + WINDOW
    {
      assert kept[0] == accepted[|left|] && kept[i] == accepted[|left| + i];
    }
    AllWithin(kept, start);
    assert [] + kept == kept;
  }

  lemma HeadIsRecent(rows: seq<Row>, now: int)
    ensures Pruned(rows, now) != [] ==> Pruned(rows, now)[0].at > now - WINDOW
    decreases |rows|
  {
    if rows != [] && rows[0].at <= now - WINDOW { HeadIsRecent(rows[1..], now); }
  }

  /** Accepted calls keep the order and the bounds of the calls. */
  lemma {:induction false} AcceptedInOrder(calls: seq<Row>)
    requires Ordered(calls)
    ensures Ordered(Accepted(calls))
    ensures calls != [] ==> forall i :: 0 <= i < |Accepted(calls)| ==> Accepted(calls)[i].at <= calls[|calls| - 1].at
    decreases |calls|
  {
    if calls != [] {
      var before := calls[..|calls| - 1];
      AcceptedInOrder(before);
      assert before != [] ==> before[|before| - 1] == calls[|calls| - 2];
    }
  }

  lemma AllWithin(rows: seq<Row>, start: int)
    requires forall i :: 0 <= i < |rows| ==> start <= rows[i].at < start + WINDOW
    ensures Within(rows, start) == rows
    decreases |rows|
  {
    if rows != [] {
      AllWithin(rows[..|rows| - 1], start);
      assert rows == rows[..|rows| - 1] + [rows[|rows| - 1]];
    }
  }

  // ----- the class -------------------------------------------------------------------------------

  class Budget {
    var rows: seq<Row>
    var used: int
    ghost var calls: seq<Row>

    ghost predicate Valid()
      reads this
    {
      rows == RowsAfter(calls) && used == Sum(rows)
    }

    constructor ()
      ensures Valid() && calls == []
    {
      rows := [];
      used := 0;
      calls := [];
    }

    /** `take`: false stands for the rate-limit error, after which the pruned rows stay pruned. */
    method Take(now: int, count: nat) returns (accepted: bool)
      requires Valid()
      modifies this
      ensures Valid() && calls == old(calls) + [Row(now, count)]
      ensures Accepted(calls) == Accepted(old(calls)) + if accepted then [Row(now, count)] else []
    {
      while rows != [] && rows[0].at <= now - WINDOW
        invariant Pruned(rows, now) == Pruned(old(rows), now)
        invariant used == Sum(rows) && calls == old(calls)
        decreases |rows|
      {
        assert rows == [rows[0]] + rows[1..];
        SumSplits([rows[0]], rows[1..]);
        assert [rows[0]][..0] == [];
        used := used - rows[0].bytes;
        rows := rows[1..];
      }
      calls := calls + [Row(now, count)];
      assert calls[..|calls| - 1] == old(calls);
      accepted := |rows| < ROWS && used + count <= BYTES;
      if accepted {
        SumSplits(rows, [Row(now, count)]);
        assert [Row(now, count)][..0] == [];
        rows := rows + [Row(now, count)];
        used := used + count;
      }
    }
  }
}
