/** Text pages of infra/files/helper.py in a row: where each match stands in the tree's listing, and
    that following the cursors never goes back. */
module FileSearchOrder {
  import opened FileSearch

  /** The position of a match's entry in the listing, and its line. */
  datatype Spot = Spot(at: nat, line: nat)

  predicate Sooner(a: Spot, b: Spot) {
    a.at < b.at || (a.at == b.at && a.line < b.line)
  }

  predicate Rising(spots: seq<Spot>) {
    forall i, j :: 0 <= i < j < |spots| ==> Sooner(spots[i], spots[j])
  }

  /** A readable text file at that place in the listing has the text in that line. */
  predicate Hit(text: string, ps: seq<Entry>, spot: Spot) {
    && 1 <= spot.at <= |ps|
    && var node := ps[spot.at - 1].node;
       && node.Leaf? && node.regular && node.read.Lines?
       && 1 <= spot.line <= |node.read.lines| && Contains(node.read.lines[spot.line - 1], text)
  }

  /** Each match is the entry at its spot, under a line that has the text. */
  predicate Fits(text: string, ps: seq<Entry>, matches: seq<Match>, spots: seq<Spot>) {
    && |spots| == |matches|
    && forall i :: 0 <= i < |spots| ==>
         Hit(text, ps, spots[i]) && matches[i] == Match(ps[spots[i].at - 1].path, spots[i].line)
  }

  /** Past the cursor that the query came with. */
  predicate Past(q: Query, spot: Spot) {
    spot.at > q.offset && (spot.at == q.offset + 1 ==> spot.line > q.lineOffset)
  }

  /** The bytes that a page had read when it reached each entry of the listing, for as long as it went on. */
  function Spends(q: Query, clock: Clock, c: Counters, es: seq<Entry>): (spent: seq<nat>)
    decreases |es|
  {
    if es == [] || Spent(q, clock, c) then []
    else
      var t := Look(q, clock, c, es[0]);
      (if Deep(es[0]) then [] else [c.used]) + if t.On? then Spends(q, clock, t.c, es[1..]) else []
  }

  /** Files above 1 MiB, or above what was left of the bytes when they were reached, are skipped. */
  predicate TooBig(q: Query, ps: seq<Entry>, spent: seq<nat>, at: nat) {
    && 1 <= at <= |ps| && at <= |spent| && ps[at - 1].node.Leaf?
    && (ps[at - 1].node.size > TEXT || spent[at - 1] + ps[at - 1].node.size > q.budget.bytes)
  }

  predicate Placed(q: Query, c: Counters, ps: seq<Entry>, spots: seq<Spot>, spent: seq<nat>) {
    && c.position == |spent| <= |ps| && Fits(q.q, ps, c.matches, spots) && Rising(spots)
    && forall i :: 0 <= i < |spots| ==>
         spots[i].at <= c.position && Past(q, spots[i]) && !TooBig(q, ps, spent, spots[i].at)
  }

  /** Every hit past the query's cursor and before `bound` was found, or its file was too big. */
  ghost predicate Complete(q: Query, ps: seq<Entry>, spots: seq<Spot>, spent: seq<nat>, bound: Spot) {
    forall spot :: Hit(q.q, ps, spot) && Past(q, spot) && Sooner(spot, bound) ==>
      spot in spots || TooBig(q, ps, spent, spot.at)
  }

  /** The cursor of a page stands after all its matches and after every file that it skipped as too big,
      and not before the cursor it came with. */
  ghost predicate Follows(q: Query, page: Page, ps: seq<Entry>, spots: seq<Spot>, spent: seq<nat>) {
    page.next.Some? ==>
      var c := page.next.value;
      && (forall i :: 0 <= i < |spots| ==> !Past(Next(q, c), spots[i]))
      && (forall at: nat :: TooBig(q, ps, spent, at) ==> at <= c.offset)
      && (c.offset > q.offset || (c.offset == q.offset && c.lineOffset >= q.lineOffset))
  }

  /** The hit lies where a cut page without a cursor stopped, or after it, and after all that was found. */
  predicate BeyondEnd(page: Page, spots: seq<Spot>, spot: Spot) {
    page.truncated && spot.at >= page.counters.position && forall i :: 0 <= i < |spots| ==> Sooner(spots[i], spot)
  }

  /** What a finished page left out is for the next page, in a file too big, or past the end of a cut page. */
  ghost predicate Covered(q: Query, page: Page, ps: seq<Entry>, spots: seq<Spot>, spent: seq<nat>) {
    forall spot :: Hit(q.q, ps, spot) && Past(q, spot) ==>
      || spot in spots
      || TooBig(q, ps, spent, spot.at)
      || (if page.next.Some? then Past(Next(q, page.next.value), spot) else BeyondEnd(page, spots, spot))
  }

  ghost predicate Turned(q: Query, t: Turn, ps: seq<Entry>, spots: seq<Spot>, spent: seq<nat>) {
    match t
    case On(c) => Placed(q, c, ps, spots, spent) && Complete(q, ps, spots, spent, Spot(c.position + 1, 0))
    case Stop(page) => Ended(q, page, ps, spots, spent)
  }

  ghost predicate Ended(q: Query, page: Page, ps: seq<Entry>, spots: seq<Spot>, spent: seq<nat>) {
    && Placed(q, page.counters, ps, spots, spent)
    && Follows(q, page, ps, spots, spent) && Covered(q, page, ps, spots, spent)
  }

  lemma FullCovers(q: Query, clock: Clock, c: Counters, offset: nat, lineOffset: nat, ps: seq<Entry>, spots: seq<Spot>,
          spent: seq<nat>)
    requires Placed(q, c, ps, spots, spent) && Complete(q, ps, spots, spent, Spot(offset + 1, lineOffset + 1))
    requires c.position <= offset + 1
    requires (c.position == offset + 1 ==> |spots| > 0 && spots[|spots| - 1] == Spot(c.position, lineOffset))
    ensures Covered(q, Full(q, clock, c, offset, lineOffset), ps, spots, spent)
  {
    hide Contains, TooBig;
    var page := Full(q, clock, c, offset, lineOffset);
    forall spot | Hit(q.q, ps, spot) && Past(q, spot) && !Sooner(spot, Spot(offset + 1, lineOffset + 1))
      ensures if page.next.Some? then Past(Next(q, page.next.value), spot) else BeyondEnd(page, spots, spot)
    {
      forall i | 0 <= i < |spots| ensures Sooner(spots[i], spot) {
        if i < |spots| - 1 { assert Sooner(spots[i], spots[|spots| - 1]); }
      }
    }
  }

  lemma FoundIsPlaced(q: Query, c: Counters, ps: seq<Entry>, spots: seq<Spot>, spent: seq<nat>, n: nat)
    requires Placed(q, c, ps, spots, spent) && c.position >= 1 && Hit(q.q, ps, Spot(c.position, n))
    requires Past(q, Spot(c.position, n)) && !TooBig(q, ps, spent, c.position)
    requires forall i :: 0 <= i < |spots| && spots[i].at == c.position ==> spots[i].line < n
    requires Complete(q, ps, spots, spent, Spot(c.position, n))
    ensures Placed(q, Found(c, ps[c.position - 1].path, n), ps, spots + [Spot(c.position, n)], spent)
    ensures Complete(q, ps, spots + [Spot(c.position, n)], spent, Spot(c.position, n + 1))
  {
    hide Contains, TooBig;
    var more := spots + [Spot(c.position, n)];
    forall spot | Hit(q.q, ps, spot) && Past(q, spot) && Sooner(spot, Spot(c.position, n + 1))
      ensures spot in more || TooBig(q, ps, spent, spot.at)
    {
      if Sooner(spot, Spot(c.position, n)) {
        assert spot in spots ==> spot in more;
      } else {
        assert spot == more[|spots|];
      }
    }
  }

  /** The lines of the file at the current position, from line `n`. */
  lemma {:induction false} LinesRise(q: Query, clock: Clock, c: Counters, e: Entry, n: nat, ps: seq<Entry>,
          spots: seq<Spot>, spent: seq<nat>)
    returns (r: seq<Spot>)
    requires Placed(q, c, ps, spots, spent) && c.position > q.offset && ps[c.position - 1] == e
    requires e.node.Leaf? && e.node.regular && e.node.read.Lines? && 1 <= n <= |e.node.read.lines| + 1
    requires !TooBig(q, ps, spent, c.position)
    requires forall i :: 0 <= i < |spots| && spots[i].at == c.position ==> spots[i].line < n
    requires Complete(q, ps, spots, spent, Spot(c.position, n))
    ensures Turned(q, ReadLines(q, clock, c, e.path, e.node.read.lines[n - 1..], n), ps, r, spent)
    decreases |e.node.read.lines| + 1 - n
  {
    hide Contains, Placed, Covered, Follows, Fits, Hit, TooBig, Complete;
    var lines := e.node.read.lines[n - 1..];
    PlacedAt(q, c, ps, spots, spent);
    if lines == [] {
      r := spots;
      LinesDone(q, c, ps, spots, spent, n);
    } else {
      assert lines[1..] == e.node.read.lines[n..] && lines[0] == e.node.read.lines[n - 1];
      if (c.position == q.offset + 1 && n <= q.lineOffset) || !Contains(lines[0], q.q) {
        LinePassed(q, c, ps, spots, spent, n);
        r := LinesRise(q, clock, c, e, n + 1, ps, spots, spent);
      } else {
        var c1, more := Found(c, e.path, n), spots + [Spot(c.position, n)];
        IsHit(q, ps, Spot(c.position, n));
        FoundIsPlaced(q, c, ps, spots, spent, n);
        if |c1.matches| >= MATCHES {
          r := more;
          FullCovers(q, clock, c1, c.position - 1, n, ps, more, spent);
          FullFollows(q, clock, c1, n, ps, more, spent);
        } else {
          r := LinesRise(q, clock, c1, e, n + 1, ps, more, spent);
        }
      }
    }
  }

  lemma IsHit(q: Query, ps: seq<Entry>, spot: Spot)
    requires 1 <= spot.at <= |ps| && ps[spot.at - 1].node.Leaf? && ps[spot.at - 1].node.regular
    requires ps[spot.at - 1].node.read.Lines? && 1 <= spot.line <= |ps[spot.at - 1].node.read.lines|
    requires Contains(ps[spot.at - 1].node.read.lines[spot.line - 1], q.q)
    ensures Hit(q.q, ps, spot)
  {
  }

  lemma FullFollows(q: Query, clock: Clock, c: Counters, n: nat, ps: seq<Entry>, spots: seq<Spot>, spent: seq<nat>)
    requires Placed(q, c, ps, spots, spent) && c.position > q.offset && |spots| > 0
    requires spots[|spots| - 1] == Spot(c.position, n)
    ensures Follows(q, Full(q, clock, c, c.position - 1, n), ps, spots, spent)
  {
    hide Fits;
    assert Past(q, spots[|spots| - 1]) && !TooBig(q, ps, spent, spots[|spots| - 1].at);
    forall i | 0 <= i < |spots| - 1 ensures Sooner(spots[i], Spot(c.position, n)) {
      assert Sooner(spots[i], spots[|spots| - 1]);
    }
  }

  /** A line without the text, or before the cursor, is no hit. */
  lemma LinePassed(q: Query, c: Counters, ps: seq<Entry>, spots: seq<Spot>, spent: seq<nat>, n: nat)
    requires Complete(q, ps, spots, spent, Spot(c.position, n)) && 1 <= c.position <= |ps| && n >= 1
    requires
      || !Past(q, Spot(c.position, n))
      || !(ps[c.position - 1].node.Leaf? && ps[c.position - 1].node.read.Lines?)
      || n > |ps[c.position - 1].node.read.lines|
      || !Contains(ps[c.position - 1].node.read.lines[n - 1], q.q)
    ensures Complete(q, ps, spots, spent, Spot(c.position, n + 1))
  {
    hide Contains, TooBig;
    forall spot | Hit(q.q, ps, spot) && Past(q, spot) && Sooner(spot, Spot(c.position, n + 1))
      ensures Sooner(spot, Spot(c.position, n))
    {
    }
  }

  lemma LinesDone(q: Query, c: Counters, ps: seq<Entry>, spots: seq<Spot>, spent: seq<nat>, n: nat)
    requires Complete(q, ps, spots, spent, Spot(c.position, n)) && 1 <= c.position <= |ps|
    requires ps[c.position - 1].node.Leaf? && ps[c.position - 1].node.read.Lines?
    requires n > |ps[c.position - 1].node.read.lines|
    ensures Complete(q, ps, spots, spent, Spot(c.position + 1, 0))
  {
    hide Contains, TooBig;
    forall spot | Hit(q.q, ps, spot) && Past(q, spot) && Sooner(spot, Spot(c.position + 1, 0))
      ensures Sooner(spot, Spot(c.position, n))
    {
    }
  }

  /** An entry that is no text file, or too big a one, has no hit to find. */
  lemma EntryPassed(q: Query, c: Counters, ps: seq<Entry>, spots: seq<Spot>, spent: seq<nat>)
    requires 1 <= c.position <= |ps| && Complete(q, ps, spots, spent, Spot(c.position, 0))
    requires var e := ps[c.position - 1];
             c.position <= q.offset || !e.node.Leaf? || !e.node.regular || !e.node.read.Lines?
             || TooBig(q, ps, spent, c.position)
    ensures Complete(q, ps, spots, spent, Spot(c.position + 1, 0))
  {
    hide Contains, TooBig;
    forall spot | Hit(q.q, ps, spot) && Past(q, spot) && Sooner(spot, Spot(c.position + 1, 0))
      ensures spot in spots || TooBig(q, ps, spent, spot.at)
    {
      if spot.at < c.position { assert Sooner(spot, Spot(c.position, 0)); }
    }
  }

  /** The next entry is reached. */
  lemma ReachedNext(q: Query, c: Counters, c': Counters, ps: seq<Entry>, spots: seq<Spot>, spent: seq<nat>)
    requires Placed(q, c, ps, spots, spent) && Complete(q, ps, spots, spent, Spot(c.position + 1, 0))
    requires c'.position == c.position + 1 <= |ps| && c'.matches == c.matches
    ensures Placed(q, c', ps, spots, spent + [c.used])
    ensures Complete(q, ps, spots, spent + [c.used], Spot(c'.position, 0))
    ensures forall i :: 0 <= i < |spots| ==> spots[i].at < c'.position
  {
    hide Hit, Fits, Rising;
    assert forall i :: 0 <= i < |spent| ==> (spent + [c.used])[i] == spent[i];
  }

  lemma ClosedRises(q: Query, clock: Clock, t: Turn, ps: seq<Entry>, spots: seq<Spot>, spent: seq<nat>)
    requires Turned(q, t, ps, spots, spent) && (t.On? ==> t.c.position > q.offset)
    ensures Turned(q, Closed(q, clock, t), ps, spots, spent)
  {
    hide Complete, Fits, Covered;
    if t.On? && |t.c.matches| >= MATCHES {
      UpToNext(q, t.c, ps, spots, spent);
      FullCovers(q, clock, t.c, t.c.position, 0, ps, spots, spent);
    }
  }

  /** No line has the number 0. */
  lemma UpToNext(q: Query, c: Counters, ps: seq<Entry>, spots: seq<Spot>, spent: seq<nat>)
    requires Complete(q, ps, spots, spent, Spot(c.position + 1, 0))
    ensures Complete(q, ps, spots, spent, Spot(c.position + 1, 1))
  {
    hide Contains;
    forall spot | Hit(q.q, ps, spot) && Sooner(spot, Spot(c.position + 1, 1))
      ensures Sooner(spot, Spot(c.position + 1, 0))
    {
    }
  }

  lemma FileRises(q: Query, clock: Clock, c: Counters, e: Entry, ps: seq<Entry>, spots: seq<Spot>, spent: seq<nat>)
    returns (r: seq<Spot>)
    requires e.node.Leaf? && e.node.regular && Placed(q, c, ps, spots, spent) && c.position > q.offset
    requires ps[c.position - 1] == e && spent[c.position - 1] == c.used
    requires forall i :: 0 <= i < |spots| ==> spots[i].at < c.position
    requires Complete(q, ps, spots, spent, Spot(c.position, 0))
    ensures Turned(q, ReadFile(q, clock, c, e), ps, r, spent)
  {
    hide Fits, Complete, Covered, Follows, ReadLines;
    r := spots;
    if e.node.size > Min(TEXT, q.budget.bytes - c.used) || !e.node.read.Lines? {
      EntryPassed(q, c, ps, spots, spent);
    } else {
      var c1 := c.(used := c.used + e.node.size);
      FirstLine(q, c1, ps, spots, spent);
      assert e.node.read.lines[0..] == e.node.read.lines;
      r := LinesRise(q, clock, c1, e, 1, ps, spots, spent);
      LinesKeepCounters(q, clock, c1, e.path, e.node.read.lines, 1);
      ClosedRises(q, clock, ReadLines(q, clock, c1, e.path, e.node.read.lines, 1), ps, r, spent);
    }
  }

  lemma FirstLine(q: Query, c: Counters, ps: seq<Entry>, spots: seq<Spot>, spent: seq<nat>)
    requires Complete(q, ps, spots, spent, Spot(c.position, 0))
    ensures Complete(q, ps, spots, spent, Spot(c.position, 1))
  {
    hide Contains;
    forall spot | Hit(q.q, ps, spot) && Sooner(spot, Spot(c.position, 1)) ensures Sooner(spot, Spot(c.position, 0)) {
    }
  }

  lemma SpentCovers(q: Query, c: Counters, ps: seq<Entry>, spots: seq<Spot>, spent: seq<nat>)
    requires Placed(q, c, ps, spots, spent) && Complete(q, ps, spots, spent, Spot(c.position + 1, 0))
    ensures Covered(q, Page(c, true, None), ps, spots, spent)
  {
    hide Contains, Fits, TooBig;
    forall spot | Hit(q.q, ps, spot) && Past(q, spot) && !Sooner(spot, Spot(c.position + 1, 0))
      ensures BeyondEnd(Page(c, true, None), spots, spot)
    {
    }
  }

  /** What the page had read when it reached the entry, if it did and the entry has a position. */
  function Reached(q: Query, clock: Clock, c: Counters, e: Entry): (spent: seq<nat>) {
    if Spent(q, clock, c) || Deep(e) then [] else [c.used]
  }

  lemma LookRises(q: Query, clock: Clock, c: Counters, e: Entry, ps: seq<Entry>, spots: seq<Spot>, spent: seq<nat>)
    returns (r: seq<Spot>)
    requires q.text && Placed(q, c, ps, spots, spent) && Complete(q, ps, spots, spent, Spot(c.position + 1, 0))
    requires !Deep(e) ==> c.position < |ps| && ps[c.position] == e
    ensures Turned(q, Look(q, clock, c, e), ps, r, spent + Reached(q, clock, c, e))
    ensures Look(q, clock, c, e).On? ==> Look(q, clock, c, e).c.position == c.position + if Deep(e) then 0 else 1
  {
    hide Contains, Fits, Complete, Covered, ReadFile, TooBig;
    r := spots;
    assert spent + [] == spent;
    if Spent(q, clock, c) {
      SpentCovers(q, c, ps, spots, spent);
    } else if !Deep(e) {
      var c2, more := c.(visited := c.visited + 1, position := c.position + 1), spent + [c.used];
      ReachedNext(q, c, c2, ps, spots, spent);
      if c2.position > q.offset && e.node.Leaf? && e.node.regular {
        r := FileRises(q, clock, c2, e, ps, spots, more);
        FileKeepsPosition(q, clock, c2, e);
      } else {
        EntryPassed(q, c2, ps, spots, more);
        if c2.position > q.offset { ClosedRises(q, clock, On(c2), ps, spots, more); }
      }
    }
  }

  lemma FileKeepsPosition(q: Query, clock: Clock, c: Counters, e: Entry)
    requires c.position >= 1 && e.node.Leaf?
    ensures ReadFile(q, clock, c, e).On? ==> ReadFile(q, clock, c, e).c.position == c.position
  {
    hide ReadLines;
    if e.node.read.Lines? {
      LinesKeepCounters(q, clock, c.(used := c.used + e.node.size), e.path, e.node.read.lines, 1);
    }
  }

  lemma EndCovers(q: Query, c: Counters, ps: seq<Entry>, spots: seq<Spot>, spent: seq<nat>)
    requires Placed(q, c, ps, spots, spent) && c.position == |ps|
    requires Complete(q, ps, spots, spent, Spot(c.position + 1, 0))
    ensures Ended(q, Page(c, false, None), ps, spots, spent)
  {
    hide Contains, Fits, Rising, TooBig;
    forall spot | Hit(q.q, ps, spot) ensures Sooner(spot, Spot(c.position + 1, 0)) {
    }
  }

  lemma PlacedAt(q: Query, c: Counters, ps: seq<Entry>, spots: seq<Spot>, spent: seq<nat>)
    requires Placed(q, c, ps, spots, spent)
    ensures c.position == |spent| <= |ps|
  {
  }

  lemma {:induction false} ScanRises(q: Query, clock: Clock, c: Counters, es: seq<Entry>, ps: seq<Entry>,
          spots: seq<Spot>, spent: seq<nat>)
    returns (r: seq<Spot>)
    requires q.text && Placed(q, c, ps, spots, spent) && Complete(q, ps, spots, spent, Spot(c.position + 1, 0))
    requires c.position <= |ps| && ps[c.position..] == Positioned(es)
    ensures Ended(q, Scan(q, clock, c, es), ps, r, spent + Spends(q, clock, c, es))
    decreases |es|
  {
    hide Look, Placed, Ended, Complete;
    assert spent + [] == spent;
    if es == [] {
      r := spots;
      EndCovers(q, c, ps, spots, spent);
    } else {
      PositionedFirst(es);
      if !Deep(es[0]) {
        assert Positioned(es)[0] == es[0];
        assert c.position < |ps| && ps[c.position] == ps[c.position..][0];
      }
      r := LookRises(q, clock, c, es[0], ps, spots, spent);
      var t, more := Look(q, clock, c, es[0]), spent + Reached(q, clock, c, es[0]);
      SpendsFirst(q, clock, c, es);
      if t.On? {
        PlacedAt(q, t.c, ps, r, more);
        assert ps[t.c.position..] == Positioned(es[1..]);
        r := ScanRises(q, clock, t.c, es[1..], ps, r, more);
        assert more + Spends(q, clock, t.c, es[1..]) == spent + Spends(q, clock, c, es);
      } else {
        assert more == spent + Spends(q, clock, c, es);
      }
    }
  }

  lemma SpendsFirst(q: Query, clock: Clock, c: Counters, es: seq<Entry>)
    requires es != []
    ensures Spends(q, clock, c, es)
            == Reached(q, clock, c, es[0])
               + if Look(q, clock, c, es[0]).On? then Spends(q, clock, Look(q, clock, c, es[0]).c, es[1..]) else []
  {
    assert Spent(q, clock, c) ==> Look(q, clock, c, es[0]).Stop?;
    hide Look;
  }

  lemma PositionedFirst(es: seq<Entry>)
    requires es != []
    ensures Positioned(es) == (if Deep(es[0]) then [] else [es[0]]) + Positioned(es[1..])
    ensures Deep(es[0]) ==> Positioned(es) == Positioned(es[1..])
    ensures !Deep(es[0]) ==>
              |Positioned(es)| > 0 && Positioned(es)[0] == es[0] && Positioned(es)[1..] == Positioned(es[1..])
  {
  }

  // ----- a chain of pages -----------------------------------------------------------------------------------

  function PageSpends(q: Query, clock: Clock, tree: seq<Node>): (spent: seq<nat>) {
    Spends(q, clock, START, Visits([Frame([], tree)]))
  }

  /** Some page of the chain reached the file of `spot` with its cursor still before `spot`, and skipped
      it because of its size. */
  predicate Skipped(q: Query, clocks: nat -> Clock, n: nat, tree: seq<Node>, spot: Spot)
    decreases q.budget.ms
  {
    var page := SearchPage(q, clocks(n), tree);
    ScanKeepsBudget(q, clocks(n), START, Visits([Frame([], tree)]));
    || TooBig(q, Listing(tree), PageSpends(q, clocks(n), tree), spot.at)
    || (page.next.Some? && Past(Next(q, page.next.value), spot)
        && Skipped(Next(q, page.next.value), clocks, n + 1, tree, spot))
  }

  /** Every hit past the first cursor is found, unless its file was skipped for its size when a page
      reached it, or the hit lies past the end of a last page that was cut without a cursor: and in these
      two cases it is not found. */
  ghost predicate FoundExactly(q: Query, clocks: nat -> Clock, n: nat, tree: seq<Node>, last: Page, spots: seq<Spot>) {
    forall spot :: Hit(q.q, Listing(tree), spot) && Past(q, spot) ==>
      (spot in spots <==> !Skipped(q, clocks, n, tree, spot) && !BeyondEnd(last, spots, spot))
  }

  /** In a chain of text pages every match stands at its own spot, in a line that has the text, and the
      spots rise strictly from the first match of the first page to the last of the last: nothing is found
      twice, nothing out of order. And it is known exactly what is left out. */
  lemma {:induction false} TextMatchesRise(q: Query, clocks: nat -> Clock, n: nat, tree: seq<Node>)
    returns (spots: seq<Spot>)
    requires q.text
    ensures var pages := Chain(q, clocks, n, tree);
            && Fits(q.q, Listing(tree), AllMatches(pages), spots) && Rising(spots)
            && FoundExactly(q, clocks, n, tree, pages[|pages| - 1], spots)
    ensures forall i :: 0 <= i < |spots| ==> Past(q, spots[i])
    decreases q.budget.ms
  {
    hide Chain, AllMatches, SearchPage, Listing, PageSpends, Fits, FoundExactly, Rising, Past, Ended;
    var page, ps, pages := SearchPage(q, clocks(n), tree), Listing(tree), Chain(q, clocks, n, tree);
    var first := OnePage(q, clocks(n), tree);
    EndedMeans(q, page, ps, first, PageSpends(q, clocks(n), tree));
    ChainUnfolds(q, clocks, n, tree);
    if page.next.Some? {
      var q' := Next(q, page.next.value);
      var rest := TextMatchesRise(q', clocks, n + 1, tree);
      spots := first + rest;
      Joins(q, page.next.value, first, rest);
      FitsJoin(q.q, ps, page.counters.matches, first, AllMatches(Chain(q', clocks, n + 1, tree)), rest);
      ExactlyJoins(q, clocks, n, tree, pages[|pages| - 1], first, rest);
    } else {
      spots := first;
      OnePageExactly(q, clocks, n, tree, spots);
    }
  }

  lemma OnePage(q: Query, clock: Clock, tree: seq<Node>) returns (spots: seq<Spot>)
    requires q.text
    ensures Ended(q, SearchPage(q, clock, tree), Listing(tree), spots, PageSpends(q, clock, tree))
  {
    hide Scan, Ended, Spends, Complete, Placed, Visits, Positioned;
    var ps := Listing(tree);
    assert ps[0..] == ps;
    NothingYet(q, ps);
    spots := ScanRises(q, clock, START, Visits([Frame([], tree)]), ps, [], []);
    assert [] + PageSpends(q, clock, tree) == PageSpends(q, clock, tree);
  }

  lemma NothingYet(q: Query, ps: seq<Entry>)
    ensures Placed(q, START, ps, [], []) && Complete(q, ps, [], [], Spot(1, 0))
  {
    hide Contains;
  }

  lemma EndedMeans(q: Query, page: Page, ps: seq<Entry>, spots: seq<Spot>, spent: seq<nat>)
    requires Ended(q, page, ps, spots, spent)
    ensures Fits(q.q, ps, page.counters.matches, spots) && Rising(spots)
    ensures forall i :: 0 <= i < |spots| ==> Past(q, spots[i])
    ensures page.next.Some? ==>
              var c := page.next.value;
              && (forall i :: 0 <= i < |spots| ==> !Past(Next(q, c), spots[i]))
              && (c.offset > q.offset || (c.offset == q.offset && c.lineOffset >= q.lineOffset))
  {
    hide Fits, Rising, Past, Covered, TooBig;
  }

  lemma FitsJoin(text: string, ps: seq<Entry>, a: seq<Match>, first: seq<Spot>, b: seq<Match>, rest: seq<Spot>)
    requires Fits(text, ps, a, first) && Fits(text, ps, b, rest)
    ensures Fits(text, ps, a + b, first + rest)
  {
    hide Hit;
  }

  /** What one page comes to for one hit. */
  lemma OneHit(q: Query, page: Page, ps: seq<Entry>, spots: seq<Spot>, spent: seq<nat>, spot: Spot)
    requires Ended(q, page, ps, spots, spent) && Hit(q.q, ps, spot) && Past(q, spot)
    ensures spot in spots ==> !TooBig(q, ps, spent, spot.at) && !BeyondEnd(page, spots, spot)
    ensures spot !in spots && !TooBig(q, ps, spent, spot.at) ==>
              if page.next.Some? then Past(Next(q, page.next.value), spot) else BeyondEnd(page, spots, spot)
    ensures page.next.Some? && (spot in spots || TooBig(q, ps, spent, spot.at)) ==>
              !Past(Next(q, page.next.value), spot)
  {
    hide Hit, Fits, Rising, TooBig;
  }

  lemma OnePageExactly(q: Query, clocks: nat -> Clock, n: nat, tree: seq<Node>, spots: seq<Spot>)
    requires SearchPage(q, clocks(n), tree).next.None?
    requires Ended(q, SearchPage(q, clocks(n), tree), Listing(tree), spots, PageSpends(q, clocks(n), tree))
    ensures FoundExactly(q, clocks, n, tree, SearchPage(q, clocks(n), tree), spots)
  {
    hide Hit, Past, Ended, TooBig, BeyondEnd, Scan, Spends, Positioned, SearchPage, PageSpends, Listing;
    forall spot | Hit(q.q, Listing(tree), spot) && Past(q, spot) {
      OneHit(q, SearchPage(q, clocks(n), tree), Listing(tree), spots, PageSpends(q, clocks(n), tree), spot);
    }
  }

  lemma ExactlyJoins(q: Query, clocks: nat -> Clock, n: nat, tree: seq<Node>, last: Page, first: seq<Spot>,
          rest: seq<Spot>)
    requires var page := SearchPage(q, clocks(n), tree);
             && page.next.Some? && Ended(q, page, Listing(tree), first, PageSpends(q, clocks(n), tree))
             && page.next.value.budget.ms < q.budget.ms
             && (forall i :: 0 <= i < |rest| ==> Past(Next(q, page.next.value), rest[i]))
             && FoundExactly(Next(q, page.next.value), clocks, n + 1, tree, last, rest)
    ensures FoundExactly(q, clocks, n, tree, last, first + rest)
  {
    hide Hit, Ended, TooBig, Scan, Spends, Positioned, SearchPage, PageSpends, Listing, BeyondEnd, Past;
    var page, ps, spots := SearchPage(q, clocks(n), tree), Listing(tree), first + rest;
    var q' := Next(q, page.next.value);
    forall spot | Hit(q.q, ps, spot) && Past(q, spot)
      ensures spot in spots <==> !Skipped(q, clocks, n, tree, spot) && !BeyondEnd(last, spots, spot)
    {
      OneHit(q, page, ps, first, PageSpends(q, clocks(n), tree), spot);
      BeyondJoins(q, page, last, ps, first, rest, PageSpends(q, clocks(n), tree), spot);
    }
  }

  /** A hit that the cursor leaves to the next page lies after all that this page found. */
  lemma BeyondJoins(q: Query, page: Page, last: Page, ps: seq<Entry>, first: seq<Spot>, rest: seq<Spot>,
          spent: seq<nat>, spot: Spot)
    requires Ended(q, page, ps, first, spent) && page.next.Some?
    ensures BeyondEnd(last, first + rest, spot) ==> spot !in first + rest && BeyondEnd(last, rest, spot)
    ensures Past(Next(q, page.next.value), spot) && BeyondEnd(last, rest, spot) ==> BeyondEnd(last, first + rest, spot)
  {
    hide Hit, Fits, Rising, TooBig, Covered, Placed;
    var spots := first + rest;
    assert forall i :: 0 <= i < |rest| ==> spots[|first| + i] == rest[i];
  }

  lemma Joins(q: Query, c: Cursor, first: seq<Spot>, rest: seq<Spot>)
    requires Rising(first) && Rising(rest)
    requires forall i :: 0 <= i < |first| ==> Past(q, first[i]) && !Past(Next(q, c), first[i])
    requires forall i :: 0 <= i < |rest| ==> Past(Next(q, c), rest[i])
    requires c.offset > q.offset || (c.offset == q.offset && c.lineOffset >= q.lineOffset)
    ensures Rising(first + rest) && forall i :: 0 <= i < |first + rest| ==> Past(q, (first + rest)[i])
  {
  }

  // ----- a cursor inside a file --------------------------------------------------------------------------------

  /** What lies before the cursor costs entries but no bytes. */
  lemma {:induction false} SpendsNothing(q: Query, clock: Clock, c: Counters, es: seq<Entry>, i: nat)
    requires q.text && i < |Spends(q, clock, c, es)| && c.position + i <= q.offset
    ensures Spends(q, clock, c, es)[i] == c.used
    decreases |es|
  {
    var t := Look(q, clock, c, es[0]);
    SpendsFirst(q, clock, c, es);
    if t.On? && (Deep(es[0]) || i > 0) {
      SpendsNothing(q, clock, t.c, es[1..], if Deep(es[0]) then i else i - 1);
    }
  }

  /** A page that stops inside a file leaves the rest of it to the next page, which reads the whole file
      again. That page, if it gets there, skips the rest exactly when the file is larger than the bytes
      that came with the cursor (or than 1 MiB): the rest is then never found, although the chain goes on
      behind it. */
  lemma RestIsLostExactly(q: Query, clocks: nat -> Clock, n: nat, tree: seq<Node>, spot: Spot)
    returns (spots: seq<Spot>)
    requires q.text && Hit(q.q, Listing(tree), spot) && spot.at == q.offset + 1 && spot.line > q.lineOffset
    requires |PageSpends(q, clocks(n), tree)| > q.offset
    ensures var lost := Listing(tree)[q.offset].node.size > Min(TEXT, q.budget.bytes);
            && (lost <==> TooBig(q, Listing(tree), PageSpends(q, clocks(n), tree), spot.at))
            && Fits(q.q, Listing(tree), AllMatches(Chain(q, clocks, n, tree)), spots)
            && (lost ==> spot !in spots)
  {
    hide Chain, AllMatches, Fits, Rising, Spends, Visits, Positioned, Scan;
    SpendsNothing(q, clocks(n), START, Visits([Frame([], tree)]), q.offset);
    spots := TextMatchesRise(q, clocks, n, tree);
  }

  lemma {:induction false} EveryLine(q: Query, clock: Clock, c: Counters, path: Path, lines: seq<string>, n: nat)
    returns (c': Counters)
    requires q.offset == q.lineOffset == 0 && c.position == 1 && 1 <= n <= MATCHES < |lines|
    requires |c.matches| == n - 1 && forall i :: 0 <= i < |lines| ==> Contains(lines[i], q.q)
    ensures ReadLines(q, clock, c, path, lines[n - 1..], n) == Stop(Full(q, clock, c', 0, MATCHES))
    ensures |c'.matches| == MATCHES && c' == c.(matches := c'.matches)
    decreases MATCHES - n
  {
    hide Contains;
    var left := lines[n - 1..];
    assert left[0] == lines[n - 1] && left[1..] == lines[n..];
    c' := Found(c, path, n);
    if n < MATCHES { c' := EveryLine(q, clock, c', path, lines, n + 1); }
  }

  lemma OneFile(leaf: Node)
    requires leaf.Leaf?
    ensures Visits([Frame([], [leaf])]) == [Entry([leaf.name], leaf)]
  {
    var stack, rest: seq<Frame> := [Frame([], [leaf])], [];
    assert [leaf][1..] == [] && Pushed([], [leaf]) == [] && stack[..0] == rest && rest + [] == [];
    assert [] + [leaf.name] == [leaf.name] && Entries([], [leaf]) == [Entry([leaf.name], leaf)];
    assert Visits([]) == [];
  }

  /** And it happens: of a file with the text in more than 200 lines and of more than half the bytes, the
      chain finds 200 lines, and ends as if it had searched everything. */
  lemma HalfSearched(q: Query, clocks: nat -> Clock, name: string, size: nat, lines: seq<string>)
    requires q.text && q.offset == q.lineOffset == 0 && |lines| > MATCHES
    requires forall i :: 0 <= i < |lines| ==> Contains(lines[i], q.q)
    requires size <= TEXT && size < q.budget.bytes < 2 * size
    requires q.budget.entries >= 2 && q.budget.ms > clocks(0).elapsed && q.budget.ms > 1
    requires !clocks(0).late(0) && !clocks(1).late(0)
    ensures var pages := Chain(q, clocks, 0, [Leaf(name, true, size, Lines(lines))]);
            |pages| == 2 && |AllMatches(pages)| == MATCHES && !pages[1].truncated
  {
    hide Contains, Visits;
    var leaf := Leaf(name, true, size, Lines(lines));
    var e := Entry([name], leaf);
    OneFile(leaf);
    var c := Counters(1, size, 0, 1, []);
    assert lines[0..] == lines;
    var full := EveryLine(q, clocks(0), c, e.path, lines, 1);
    var page := Full(q, clocks(0), full, 0, MATCHES);
    assert Look(q, clocks(0), START, e) == Stop(page);
    assert SearchPage(q, clocks(0), [leaf]) == page;
    var q' := Next(q, page.next.value);
    var skipped := Counters(1, 0, 1, 1, []);
    assert Look(q', clocks(1), START, e) == On(skipped);
    assert [e][1..] == [] && Scan(q', clocks(1), skipped, []) == Page(skipped, false, None);
    assert SearchPage(q', clocks(1), [leaf]) == Page(skipped, false, None);
    ChainUnfolds(q, clocks, 0, [leaf]);
    ChainUnfolds(q', clocks, 1, [leaf]);
    assert page.counters.matches + [] == page.counters.matches;
  }
}
