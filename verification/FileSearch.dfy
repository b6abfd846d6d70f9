/** Paged search of infra/files/helper.py: a depth-first walk under budgets of entries, bytes and
    time, cut into pages of 200 matches that a cursor continues. The tree does not change. */
module FileSearch {

  datatype Read = Denied | Binary | Lines(lines: seq<string>)

  /** Children stand in the order in which the directory is listed. */
  datatype Node =
    | Dir(name: string, children: seq<Node>)
    | Leaf(name: string, regular: bool, size: nat, read: Read)

  type Path = seq<string>

  datatype Entry = Entry(path: Path, node: Node)

  /** A directory waiting on the stack. */
  datatype Frame = Frame(path: Path, children: seq<Node>)

  datatype Budget = Budget(entries: nat, bytes: nat, ms: nat)

  datatype Query = Query(q: string, text: bool, offset: nat, lineOffset: nat, budget: Budget)

  /** Time during one page: whether it had run out at each entry, and how much had passed at the end. */
  datatype Clock = Clock(late: nat -> bool, elapsed: nat)

  /** Line 0 stands for a filename match. */
  datatype Match = Match(path: Path, line: nat)

  datatype Cursor = Cursor(offset: nat, lineOffset: nat, budget: Budget)

  datatype Option<T> = None | Some(value: T)

  datatype Counters = Counters(visited: nat, used: nat, skipped: nat, position: nat, matches: seq<Match>)

  datatype Page = Page(counters: Counters, truncated: bool, next: Option<Cursor>)

  /** One entry or line either goes on or ends the page. */
  datatype Turn = On(c: Counters) | Stop(page: Page)

  const TEXT := 1048576
  const MATCHES := 200
  const DEPTH := 32
  const START: Counters := Counters(0, 0, 0, 0, [])

  // ----- the walk ------------------------------------------------------------------------------------

  function Nodes(node: Node): (n: nat)
    decreases node, 0
  {
    if node.Leaf? then 1 else 1 + NodesOf(node.children)
  }

  function NodesOf(nodes: seq<Node>): (n: nat)
    decreases nodes, 1
  {
    if nodes == [] then 0 else Nodes(nodes[0]) + NodesOf(nodes[1..])
  }

  function Weight(stack: seq<Frame>): (n: nat) {
    if stack == [] then 0 else Weight(stack[..|stack| - 1]) + 1 + NodesOf(stack[|stack| - 1].children)
  }

  function Entries(path: Path, children: seq<Node>): (es: seq<Entry>) {
    if children == [] then [] else [Entry(path + [children[0].name], children[0])] + Entries(path, children[1..])
  }

  predicate Deep(e: Entry) { |e.path| > DEPTH }

  /** The frames that the entries of one directory push, in order. */
  function Pushed(path: Path, children: seq<Node>): (frames: seq<Frame>) {
    if children == [] then []
    else
      var p := path + [children[0].name];
      (if children[0].Dir? && |p| <= DEPTH then [Frame(p, children[0].children)] else []) + Pushed(path, children[1..])
  }

  lemma WeightSplits(a: seq<Frame>, b: seq<Frame>)
    ensures Weight(a + b) == Weight(a) + Weight(b)
    decreases |b|
  {
    if b == [] {
      assert a + b == a;
    } else {
      WeightSplits(a, b[..|b| - 1]);
      assert (a + b)[..|a + b| - 1] == a + b[..|b| - 1];
    }
  }

  lemma PushedWeighsLess(path: Path, children: seq<Node>)
    ensures Weight(Pushed(path, children)) <= NodesOf(children)
    decreases |children|
  {
    if children != [] {
      var p := path + [children[0].name];
      PushedWeighsLess(path, children[1..]);
      if children[0].Dir? && |p| <= DEPTH {
        WeightSplits([Frame(p, children[0].children)], Pushed(path, children[1..]));
        assert [Frame(p, children[0].children)][..0] == [];
      } else {
        assert [] + Pushed(path, children[1..]) == Pushed(path, children[1..]);
      }
    }
  }

  /** Every entry of the walk: a directory's own entries, then the last pushed directory first. */
  function Visits(stack: seq<Frame>): (es: seq<Entry>)
    decreases Weight(stack)
  {
    if stack == [] then []
    else
      var top, rest := stack[|stack| - 1], stack[..|stack| - 1];
      PushedWeighsLess(top.path, top.children);
      WeightSplits(rest, Pushed(top.path, top.children));
      Entries(top.path, top.children) + Visits(rest + Pushed(top.path, top.children))
  }

  // ----- one page ---------------------------------------------------------------------------------------

  predicate Contains(text: string, q: string) {
    |q| <= |text| && (text[..|q|] == q || (text != [] && Contains(text[1..], q)))
  }

  predicate StandsAt(text: string, q: string, i: nat) {
    i + |q| <= |text| && text[i..i + |q|] == q
  }

  /** The text stands somewhere in the other. */
  lemma {:induction false} ContainsSomewhere(text: string, q: string)
    ensures Contains(text, q) <==> exists i :: StandsAt(text, q, i)
    decreases |text|
  {
    assert |q| <= |text| ==> text[0..0 + |q|] == text[..|q|];
    assert StandsAt(text, q, 0) <==> |q| <= |text| && text[..|q|] == q;
    if text != [] {
      ContainsSomewhere(text[1..], q);
      forall i: nat ensures StandsAt(text, q, i + 1) <==> StandsAt(text[1..], q, i) {
        assert i + 1 + |q| <= |text| ==> text[i + 1..i + 1 + |q|] == text[1..][i..i + |q|];
      }
      if i: nat :| StandsAt(text[1..], q, i) { assert StandsAt(text, q, i + 1); }
      if i: nat :| StandsAt(text, q, i) { assert i > 0 ==> StandsAt(text[1..], q, i - 1); }
    }
  }

  function Min(a: int, b: int): (r: int) { if a < b then a else b }

  function Less(a: nat, b: nat): (r: nat) { if a < b then 0 else a - b }

  /** `remaining`: time always costs something. */
  function Remaining(q: Query, clock: Clock, c: Counters): (b: Budget) {
    Budget(Less(q.budget.entries, c.visited), Less(q.budget.bytes, c.used),
           Less(q.budget.ms, if clock.elapsed < 1 then 1 else clock.elapsed))
  }

  /** What a cursor has left: what was spent is gone, time by at least one, and nothing is owed. */
  lemma RemainingExactly(q: Query, clock: Clock, c: Counters)
    ensures var left := Remaining(q, clock, c);
            && (c.visited <= q.budget.entries ==> left.entries + c.visited == q.budget.entries)
            && (c.used <= q.budget.bytes ==> left.bytes + c.used == q.budget.bytes)
            && (1 <= clock.elapsed <= q.budget.ms ==> left.ms + clock.elapsed == q.budget.ms)
            && (clock.elapsed == 0 && q.budget.ms > 0 ==> left.ms + 1 == q.budget.ms)
            && (c.visited > q.budget.entries ==> left.entries == 0) && (c.used > q.budget.bytes ==> left.bytes == 0)
            && (clock.elapsed > q.budget.ms ==> left.ms == 0)
  {
  }

  predicate Left(b: Budget) { b.entries > 0 && b.bytes > 0 && b.ms > 0 }

  function Full(q: Query, clock: Clock, c: Counters, offset: nat, lineOffset: nat): (p: Page) {
    var left := Remaining(q, clock, c);
    Page(c, true, if Left(left) then Some(Cursor(offset, lineOffset, left)) else None)
  }

  predicate Spent(q: Query, clock: Clock, c: Counters) {
    c.visited >= q.budget.entries || c.used >= q.budget.bytes || clock.late(c.visited)
  }

  /** A page stops before an entry when entries, bytes or time are used up, and a full page gives a cursor
      exactly when some of each is left. */
  lemma LimitsExactly(q: Query, clock: Clock, c: Counters, offset: nat, line: nat, e: Entry)
    ensures !Spent(q, clock, c) <==>
              c.visited + 1 <= q.budget.entries && c.used + 1 <= q.budget.bytes && !clock.late(c.visited)
    ensures Full(q, clock, c, offset, line).next.Some? <==>
              && c.visited + 1 <= q.budget.entries && c.used + 1 <= q.budget.bytes
              && clock.elapsed + 1 <= q.budget.ms && 2 <= q.budget.ms
    ensures Deep(e) <==> |e.path| >= 33
  {
  }

  function Found(c: Counters, path: Path, line: nat): (c': Counters) {
    c.(matches := c.matches + [Match(path, line)])
  }

  /** The lines of one file from number `n`; those the cursor has passed are left out. */
  function ReadLines(q: Query, clock: Clock, c: Counters, path: Path, lines: seq<string>, n: nat): (t: Turn)
    requires c.position >= 1
    decreases |lines|
  {
    if lines == [] then On(c)
    else if c.position == q.offset + 1 && n <= q.lineOffset then ReadLines(q, clock, c, path, lines[1..], n + 1)
    else if !Contains(lines[0], q.q) then ReadLines(q, clock, c, path, lines[1..], n + 1)
    else
      var c1 := Found(c, path, n);
      if |c1.matches| >= MATCHES then Stop(Full(q, clock, c1, c.position - 1, n))
      else ReadLines(q, clock, c1, path, lines[1..], n + 1)
  }

  /** The check after each entry that was looked at. */
  function Closed(q: Query, clock: Clock, t: Turn): (t': Turn) {
    if t.On? && |t.c.matches| >= MATCHES then Stop(Full(q, clock, t.c, t.c.position, 0)) else t
  }

  function ReadFile(q: Query, clock: Clock, c: Counters, e: Entry): (t: Turn)
    requires c.position >= 1 && e.node.Leaf?
  {
    if e.node.size > Min(TEXT, q.budget.bytes - c.used) || e.node.read.Denied? then On(c.(skipped := c.skipped + 1))
    else if e.node.read.Binary? then On(c.(used := c.used + e.node.size, skipped := c.skipped + 1))
    else Closed(q, clock, ReadLines(q, clock, c.(used := c.used + e.node.size), e.path, e.node.read.lines, 1))
  }

  function Look(q: Query, clock: Clock, c: Counters, e: Entry): (t: Turn) {
    if Spent(q, clock, c) then Stop(Page(c, true, None))
    else
      var c1 := c.(visited := c.visited + 1);
      if Deep(e) then On(c1.(skipped := c1.skipped + 1))
      else
        var c2 := c1.(position := c1.position + 1);
        if c2.position <= q.offset then On(c2)
        else if !q.text then
          Closed(q, clock, On(if Contains(e.node.name, q.q) then Found(c2, e.path, 0) else c2))
        else if e.node.Leaf? && e.node.regular then ReadFile(q, clock, c2, e)
        else Closed(q, clock, On(c2))
  }

  /** What one entry counts for: one visited; one skipped if it lies too deep, is too big or cannot be read
      as text; and the bytes of a file that was opened, as text or not. */
  lemma EntryCounts(q: Query, clock: Clock, c: Counters, e: Entry)
    requires !Spent(q, clock, c)
    ensures var t := Look(q, clock, c, e);
            var c' := if t.On? then t.c else t.page.counters;
            var tried := !Deep(e) && c.position >= q.offset && q.text && e.node.Leaf? && e.node.regular;
            var taken := tried && e.node.size <= TEXT && c.used + e.node.size <= q.budget.bytes
                         && !e.node.read.Denied?;
            && c'.visited == c.visited + 1
            && c'.position == (if Deep(e) then c.position else c.position + 1)
            && c'.used == (if taken then c.used + e.node.size else c.used)
            && c'.skipped == if Deep(e) || (tried && !(taken && e.node.read.Lines?)) then c.skipped + 1 else c.skipped
  {
    hide ReadLines;
    if e.node.Leaf? && e.node.read.Lines? {
      var c2 := c.(visited := c.visited + 1, position := c.position + 1, used := c.used + e.node.size);
      LinesCount(q, clock, c2, e.path, e.node.read.lines, 1);
    }
  }

  lemma {:induction false} LinesCount(q: Query, clock: Clock, c: Counters, path: Path, lines: seq<string>, n: nat)
    requires c.position >= 1
    ensures var t := ReadLines(q, clock, c, path, lines, n);
            var c' := if t.On? then t.c else t.page.counters;
            c'.visited == c.visited && c'.used == c.used && c'.position == c.position && c'.skipped == c.skipped
    decreases |lines|
  {
    hide Contains;
    if lines != [] {
      LinesCount(q, clock, c, path, lines[1..], n + 1);
      LinesCount(q, clock, Found(c, path, n), path, lines[1..], n + 1);
    }
  }

  function Scan(q: Query, clock: Clock, c: Counters, es: seq<Entry>): (p: Page)
    decreases |es|
  {
    if es == [] then Page(c, false, None)
    else match Look(q, clock, c, es[0])
      case Stop(page) => page
      case On(c') => Scan(q, clock, c', es[1..])
  }

  function SearchPage(q: Query, clock: Clock, tree: seq<Node>): (p: Page) {
    Scan(q, clock, START, Visits([Frame([], tree)]))
  }

  // ----- budgets -------------------------------------------------------------------------------------------

  predicate WithinBudget(q: Query, c: Counters) {
    c.visited <= q.budget.entries && c.used <= q.budget.bytes
  }

  lemma {:induction false} LinesKeepCounters(q: Query, clock: Clock, c: Counters, path: Path, lines: seq<string>,
          n: nat)
    requires c.position >= 1
    ensures var t := ReadLines(q, clock, c, path, lines, n);
            var c' := if t.On? then t.c else t.page.counters;
            c'.visited == c.visited && c'.used == c.used && c'.position == c.position
            && (t.Stop? && t.page.next.Some? ==>
                  t.page.next.value.budget == Remaining(q, clock, c') && Left(t.page.next.value.budget))
    decreases |lines|
  {
    hide Contains;
    if lines != [] {
      LinesKeepCounters(q, clock, c, path, lines[1..], n + 1);
      LinesKeepCounters(q, clock, Found(c, path, n), path, lines[1..], n + 1);
    }
  }

  lemma LookKeepsBudget(q: Query, clock: Clock, c: Counters, e: Entry)
    requires WithinBudget(q, c)
    ensures var t := Look(q, clock, c, e);
            var c' := if t.On? then t.c else t.page.counters;
            WithinBudget(q, c')
            && (t.Stop? && t.page.next.Some? ==>
                  t.page.next.value.budget == Remaining(q, clock, c') && Left(t.page.next.value.budget))
  {
    hide Contains;
    if !Spent(q, clock, c) && !Deep(e) && q.text && e.node.Leaf? && e.node.regular && e.node.read.Lines? {
      var c2 := c.(visited := c.visited + 1, position := c.position + 1, used := c.used + e.node.size);
      LinesKeepCounters(q, clock, c2, e.path, e.node.read.lines, 1);
    }
  }

  lemma {:induction false} ScanKeepsBudget(q: Query, clock: Clock, c: Counters, es: seq<Entry>)
    requires WithinBudget(q, c)
    ensures var p := Scan(q, clock, c, es);
            WithinBudget(q, p.counters)
            && (p.next.Some? ==> p.next.value.budget == Remaining(q, clock, p.counters) && Left(p.next.value.budget))
    decreases |es|
  {
    hide Look;
    if es != [] {
      LookKeepsBudget(q, clock, c, es[0]);
      var t := Look(q, clock, c, es[0]);
      if t.On? { ScanKeepsBudget(q, clock, t.c, es[1..]); }
    }
  }

  function Next(q: Query, cursor: Cursor): (q': Query) {
    q.(offset := cursor.offset, lineOffset := cursor.lineOffset, budget := cursor.budget)
  }

  /** The pages that the cursors lead through; page `n` runs under `clocks(n)`. Each page leaves less
      time for the next, so there is a last one. */
  function Chain(q: Query, clocks: nat -> Clock, n: nat, tree: seq<Node>): (pages: seq<Page>)
    ensures |pages| >= 1 && pages[|pages| - 1].next.None?
    ensures forall i :: 0 <= i < |pages| - 1 ==> pages[i].next.Some?
    ensures |pages| <= q.budget.ms + 1
    decreases q.budget.ms
  {
    var page := SearchPage(q, clocks(n), tree);
    ScanKeepsBudget(q, clocks(n), START, Visits([Frame([], tree)]));
    if page.next.None? then [page]
    else
      var rest := Chain(Next(q, page.next.value), clocks, n + 1, tree);
      assert forall i :: 0 <= i < |rest| ==> ([page] + rest)[i + 1] == rest[i];
      [page] + rest
  }

  function Visited(pages: seq<Page>): (n: nat) {
    if pages == [] then 0 else pages[0].counters.visited + Visited(pages[1..])
  }

  function Inspected(pages: seq<Page>): (n: nat) {
    if pages == [] then 0 else pages[0].counters.used + Inspected(pages[1..])
  }

  /** In either mode, the entries and bytes spent over the whole chain stay within the first budget,
      and there are no more pages than milliseconds. */
  lemma {:induction false} ChainKeepsBudget(q: Query, clocks: nat -> Clock, n: nat, tree: seq<Node>)
    ensures Visited(Chain(q, clocks, n, tree)) <= q.budget.entries
    ensures Inspected(Chain(q, clocks, n, tree)) <= q.budget.bytes
    ensures |Chain(q, clocks, n, tree)| <= q.budget.ms + 1
    decreases q.budget.ms
  {
    hide Scan;
    var page := SearchPage(q, clocks(n), tree);
    ScanKeepsBudget(q, clocks(n), START, Visits([Frame([], tree)]));
    var pages := Chain(q, clocks, n, tree);
    if page.next.Some? {
      ChainKeepsBudget(Next(q, page.next.value), clocks, n + 1, tree);
      assert pages[1..] == Chain(Next(q, page.next.value), clocks, n + 1, tree);
    } else {
      assert pages[1..] == [];
    }
  }

  // ----- filename pages ----------------------------------------------------------------------------------------

  /** The entries that have a position: all but those too deep. */
  function Positioned(es: seq<Entry>): (r: seq<Entry>)
    ensures |r| <= |es|
  {
    if es == [] then [] else (if Deep(es[0]) then [] else [es[0]]) + Positioned(es[1..])
  }

  function Matching(q: string, es: seq<Entry>): (r: seq<Match>) {
    if es == [] then []
    else Matching(q, es[..|es| - 1])
         + if Contains(es[|es| - 1].node.name, q) then [Match(es[|es| - 1].path, 0)] else []
  }

  lemma MatchingSplits(q: string, a: seq<Entry>, b: seq<Entry>)
    ensures Matching(q, a + b) == Matching(q, a) + Matching(q, b)
    decreases |b|
  {
    hide Contains;
    if b == [] {
      assert a + b == a && Matching(q, a) + [] == Matching(q, a);
    } else {
      MatchingSplits(q, a, b[..|b| - 1]);
      assert (a + b)[..|a + b| - 1] == a + b[..|b| - 1];
    }
  }

  lemma MatchingOne(q: string, e: Entry, rest: seq<Entry>)
    ensures Matching(q, [e] + rest) == (if Contains(e.node.name, q) then [Match(e.path, 0)] else []) + Matching(q, rest)
  {
    hide Contains;
    MatchingSplits(q, [e], rest);
    assert [e][..0] == [] && Matching(q, []) == [];
  }

  function After(t: Turn): (c: Counters) {
    if t.On? then t.c else t.page.counters
  }

  /** What looking at one entry by name comes to. */
  lemma LookByName(q: Query, clock: Clock, c: Counters, e: Entry)
    requires !q.text && |c.matches| < MATCHES
    ensures Spent(q, clock, c) ==> Look(q, clock, c, e) == Stop(Page(c, true, None))
    ensures !Spent(q, clock, c) ==>
              var c' := After(Look(q, clock, c, e));
              && c'.position == (if Deep(e) then c.position else c.position + 1)
              && c'.matches == c.matches + if c.position >= q.offset && !Deep(e) && Contains(e.node.name, q.q)
                                           then [Match(e.path, 0)] else []
    ensures Look(q, clock, c, e).On? ==> |Look(q, clock, c, e).c.matches| < MATCHES
    ensures Look(q, clock, c, e).Stop? ==> Look(q, clock, c, e).page.truncated
    ensures Look(q, clock, c, e).Stop? && Look(q, clock, c, e).page.next.Some? ==>
              var p := Look(q, clock, c, e).page;
              p.next.value.offset == p.counters.position > q.offset && p.next.value.lineOffset == 0
  {
    hide Contains;
    assert c.matches + [] == c.matches;
  }

  /** Where a page by name ends and what it holds. */
  ghost predicate Holds(q: Query, c: Counters, l: seq<Entry>, p: Page, m: nat) {
    && m <= |l| && p.counters.position == c.position + m
    && p.counters.matches == c.matches + Matching(q.q, l[Min(m, Less(q.offset, c.position))..m])
    && (!p.truncated ==> m == |l| && p.next.None?)
    && (p.next.Some? ==> p.next.value.offset == p.counters.position > q.offset && p.next.value.lineOffset == 0)
  }

  lemma HoldsNothing(q: Query, c: Counters, l: seq<Entry>, p: Page)
    requires p.counters == c && p.next.None? && (!p.truncated ==> l == [])
    ensures Holds(q, c, l, p, 0)
  {
    assert l[0..0] == [] && c.matches + [] == c.matches;
  }

  lemma HoldsMore(q: Query, c: Counters, e: Entry, c': Counters, l: seq<Entry>, p: Page, m: nat)
    requires Holds(q, c', l, p, m) && !Deep(e)
    requires c'.position == c.position + 1
    requires c'.matches ==
             c.matches + if c.position >= q.offset && Contains(e.node.name, q.q) then [Match(e.path, 0)] else []
    ensures Holds(q, c, [e] + l, p, m + 1)
  {
    hide Contains;
    var all := [e] + l;
    if c.position >= q.offset {
      assert l[0..m] == l[..m] && all[0..m + 1] == [e] + l[..m];
      MatchingOne(q.q, e, l[..m]);
    } else {
      var k := Min(m, Less(q.offset, c'.position));
      assert Less(q.offset, c.position) == Less(q.offset, c'.position) + 1;
      SliceOfTail(e, l, k, m);
      assert c.matches + [] == c.matches;
    }
  }

  lemma SliceOfTail(e: Entry, l: seq<Entry>, i: nat, j: nat)
    requires i <= j <= |l|
    ensures ([e] + l)[i + 1..j + 1] == l[i..j]
  {
  }

  lemma {:induction false} ScanByName(q: Query, clock: Clock, c: Counters, es: seq<Entry>) returns (m: nat)
    requires !q.text && |c.matches| < MATCHES
    ensures Holds(q, c, Positioned(es), Scan(q, clock, c, es), m)
    decreases |es|
  {
    hide Look, Holds;
    var p, l := Scan(q, clock, c, es), Positioned(es);
    if es == [] {
      m := 0;
      HoldsNothing(q, c, l, p);
    } else {
      var e, t := es[0], Look(q, clock, c, es[0]);
      LookByName(q, clock, c, e);
      var rest := Positioned(es[1..]);
      if Spent(q, clock, c) {
        m := 0;
        HoldsNothing(q, c, l, p);
      } else if t.On? {
        m := ScanByName(q, clock, t.c, es[1..]);
        if Deep(e) {
          assert l == rest && c.matches + [] == c.matches;
          SameStart(q, c, t.c, rest, p, m);
        } else {
          HoldsMore(q, c, e, t.c, rest, p, m);
          m := m + 1;
        }
      } else {
        m := EndsHere(q, c, e, rest, p);
      }
    }
  }

  lemma SameStart(q: Query, c: Counters, c': Counters, l: seq<Entry>, p: Page, m: nat)
    requires Holds(q, c', l, p, m) && c'.position == c.position && c'.matches == c.matches
    ensures Holds(q, c, l, p, m)
  {
  }

  /** A page that is full just after `e`. */
  lemma EndsHere(q: Query, c: Counters, e: Entry, rest: seq<Entry>, p: Page) returns (m: nat)
    requires p.truncated
    requires p.counters.position == if Deep(e) then c.position else c.position + 1
    requires p.counters.matches ==
             c.matches
             + if c.position >= q.offset && !Deep(e) && Contains(e.node.name, q.q) then [Match(e.path, 0)] else []
    requires p.next.Some? ==> p.next.value.offset == p.counters.position > q.offset && p.next.value.lineOffset == 0
    ensures Holds(q, c, (if Deep(e) then [] else [e]) + rest, p, m)
  {
    hide Contains;
    if Deep(e) {
      m := 0;
      assert ([] + rest)[0..0] == [] && c.matches + [] == c.matches;
    } else {
      m := 1;
      var all := [e] + rest;
      assert all[0..1] == [e] + [] && all[1..1] == [] && c.matches + [] == c.matches;
      MatchingOne(q.q, e, []);
    }
  }

  function AllMatches(pages: seq<Page>): (r: seq<Match>) {
    if pages == [] then [] else pages[0].counters.matches + AllMatches(pages[1..])
  }

  /** All entries of the tree that have a position, in the order of the walk. */
  function Listing(tree: seq<Node>): (l: seq<Entry>) {
    Positioned(Visits([Frame([], tree)]))
  }

  lemma PageByName(q: Query, clock: Clock, tree: seq<Node>) returns (m: nat)
    requires !q.text && q.offset <= |Listing(tree)|
    ensures m <= |Listing(tree)|
    ensures SearchPage(q, clock, tree).counters.matches == Matching(q.q, Listing(tree)[Min(m, q.offset)..m])
    ensures !SearchPage(q, clock, tree).truncated ==> m == |Listing(tree)|
    ensures SearchPage(q, clock, tree).next.Some? ==>
              var cursor := SearchPage(q, clock, tree).next.value;
              cursor.offset == m > q.offset && cursor.budget.ms < q.budget.ms
  {
    hide Scan, Visits, Positioned, Matching;
    m := ScanByName(q, clock, START, Visits([Frame([], tree)]));
    ScanKeepsBudget(q, clock, START, Visits([Frame([], tree)]));
    assert Less(q.offset, 0) == q.offset;
    var found := Matching(q.q, Listing(tree)[Min(m, q.offset)..m]);
    assert [] + found == found;
  }

  lemma ChainUnfolds(q: Query, clocks: nat -> Clock, n: nat, tree: seq<Node>)
    ensures var page, pages := SearchPage(q, clocks(n), tree), Chain(q, clocks, n, tree);
            && (page.next.None? ==> pages == [page] && AllMatches(pages) == page.counters.matches)
            && (page.next.Some? ==> page.next.value.budget.ms < q.budget.ms)
            && (page.next.Some? ==>
                  pages == [page] + Chain(Next(q, page.next.value), clocks, n + 1, tree)
                  && AllMatches(pages) == page.counters.matches
                    + AllMatches(Chain(Next(q, page.next.value), clocks, n + 1, tree)))
  {
    hide Scan, Visits;
    ScanKeepsBudget(q, clocks(n), START, Visits([Frame([], tree)]));
    var page, pages := SearchPage(q, clocks(n), tree), Chain(q, clocks, n, tree);
    assert page.counters.matches + [] == page.counters.matches;
    if page.next.Some? { assert pages[1..] == Chain(Next(q, page.next.value), clocks, n + 1, tree); }
  }

  lemma {:induction false} ChainByName(q: Query, clocks: nat -> Clock, n: nat, tree: seq<Node>) returns (end: nat)
    requires !q.text && q.offset <= |Listing(tree)|
    ensures q.offset <= end <= |Listing(tree)|
    ensures AllMatches(Chain(q, clocks, n, tree)) == Matching(q.q, Listing(tree)[q.offset..end])
    ensures var pages := Chain(q, clocks, n, tree); !pages[|pages| - 1].truncated ==> end == |Listing(tree)|
    decreases q.budget.ms
  {
    hide SearchPage, Listing, Matching, Chain, AllMatches;
    var l, page := Listing(tree), SearchPage(q, clocks(n), tree);
    var m := PageByName(q, clocks(n), tree);
    ChainUnfolds(q, clocks, n, tree);
    if page.next.Some? {
      var q' := Next(q, page.next.value);
      end := ChainByName(q', clocks, n + 1, tree);
      MatchingSplits(q.q, l[q.offset..m], l[m..end]);
      assert l[q.offset..m] + l[m..end] == l[q.offset..end];
    } else {
      end := if m < q.offset then q.offset else m;
      if m < q.offset { assert l[m..m] == l[q.offset..q.offset]; }
    }
  }

  /** The filename pages, put together, are a prefix of the whole ordered list of matches, without a
      gap and without a repeat; and the whole list if the last page was not cut short. */
  lemma PagesAreAPrefix(q: Query, clocks: nat -> Clock, tree: seq<Node>)
    requires !q.text && q.offset == 0
    ensures AllMatches(Chain(q, clocks, 0, tree)) <= Matching(q.q, Listing(tree))
    ensures var pages := Chain(q, clocks, 0, tree);
            !pages[|pages| - 1].truncated ==> AllMatches(pages) == Matching(q.q, Listing(tree))
  {
    hide Scan, Visits, Positioned, Chain;
    var end := ChainByName(q, clocks, 0, tree);
    var l := Listing(tree);
    MatchingSplits(q.q, l[..end], l[end..]);
    assert l[..end] + l[end..] == l && l[0..end] == l[..end];
    assert end == |l| ==> l[..end] == l;
  }

  // ----- the listing is the tree ------------------------------------------------------------------------------------

  /** `e` stands somewhere below a directory, at most one level below the deepest one that is opened. */
  ghost predicate Below(path: Path, children: seq<Node>, e: Entry)
    decreases children
  {
    exists i :: 0 <= i < |children| && BelowChild(path, children[i], e)
  }

  ghost predicate BelowChild(path: Path, child: Node, e: Entry)
    decreases child
  {
    var p := path + [child.name];
    e == Entry(p, child) || (child.Dir? && |p| <= DEPTH && Below(p, child.children, e))
  }

  ghost predicate OnStack(stack: seq<Frame>, e: Entry) {
    exists i :: 0 <= i < |stack| && Below(stack[i].path, stack[i].children, e)
  }

  lemma BelowMore(path: Path, children: seq<Node>, e: Entry)
    requires children != []
    ensures Below(path, children, e) <==> BelowChild(path, children[0], e) || Below(path, children[1..], e)
  {
    if Below(path, children, e) {
      var i :| 0 <= i < |children| && BelowChild(path, children[i], e);
      assert i > 0 ==> children[1..][i - 1] == children[i];
    }
    if Below(path, children[1..], e) {
      var i :| 0 <= i < |children[1..]| && BelowChild(path, children[1..][i], e);
      assert children[i + 1] == children[1..][i];
    }
  }

  lemma StackSplits(a: seq<Frame>, b: seq<Frame>, e: Entry)
    ensures OnStack(a + b, e) <==> OnStack(a, e) || OnStack(b, e)
  {
    if OnStack(a, e) {
      var i :| 0 <= i < |a| && Below(a[i].path, a[i].children, e);
      assert (a + b)[i] == a[i];
    }
    if OnStack(b, e) {
      var i :| 0 <= i < |b| && Below(b[i].path, b[i].children, e);
      assert (a + b)[|a| + i] == b[i];
    }
  }

  lemma StackOfOne(f: Frame, e: Entry)
    ensures OnStack([f], e) <==> Below(f.path, f.children, e)
  {
    assert [f][0] == f;
  }

  lemma {:induction false} OpenedIsBelow(path: Path, children: seq<Node>, e: Entry)
    ensures Below(path, children, e) <==> e in Entries(path, children) || OnStack(Pushed(path, children), e)
    decreases |children|
  {
    if children != [] {
      var child, p := children[0], path + [children[0].name];
      BelowMore(path, children, e);
      OpenedIsBelow(path, children[1..], e);
      if child.Dir? && |p| <= DEPTH {
        StackOfOne(Frame(p, child.children), e);
        StackSplits([Frame(p, child.children)], Pushed(path, children[1..]), e);
      } else {
        assert [] + Pushed(path, children[1..]) == Pushed(path, children[1..]);
      }
    }
  }

  lemma {:induction false} VisitsAreOnStack(stack: seq<Frame>, e: Entry)
    ensures e in Visits(stack) <==> OnStack(stack, e)
    decreases Weight(stack)
  {
    if stack != [] {
      var top, rest := stack[|stack| - 1], stack[..|stack| - 1];
      PushedWeighsLess(top.path, top.children);
      WeightSplits(rest, Pushed(top.path, top.children));
      VisitsAreOnStack(rest + Pushed(top.path, top.children), e);
      StackSplits(rest, Pushed(top.path, top.children), e);
      OpenedIsBelow(top.path, top.children, e);
      StackSplits(rest, [top], e);
      StackOfOne(top, e);
      assert rest + [top] == stack;
    }
  }

  /** The walk meets exactly the entries of the tree down to the depth limit. */
  lemma WalkIsTheTree(tree: seq<Node>, e: Entry)
    ensures e in Visits([Frame([], tree)]) <==> Below([], tree, e)
  {
    VisitsAreOnStack([Frame([], tree)], e);
    StackOfOne(Frame([], tree), e);
  }

  // ----- the program ------------------------------------------------------------------------------------------------

  /** The lines of a file that was read. */
  method LookThrough(q: Query, clock: Clock, before: Counters, path: Path, lines: seq<string>) returns (t: Turn)
    requires before.position >= 1
    ensures t == ReadLines(q, clock, before, path, lines, 1)
  {
    var c, n := before, 0;
    assert lines[0..] == lines;
    while n < |lines|
      invariant n <= |lines| && c.position == before.position
      invariant ReadLines(q, clock, before, path, lines, 1) == ReadLines(q, clock, c, path, lines[n..], n + 1)
    {
      hide Contains;
      assert lines[n..][1..] == lines[n + 1..] && lines[n..][0] == lines[n];
      if !(c.position == q.offset + 1 && n + 1 <= q.lineOffset) && Contains(lines[n], q.q) {
        c := Found(c, path, n + 1);
        if |c.matches| >= MATCHES { return Stop(Full(q, clock, c, c.position - 1, n + 1)); }
      }
      n := n + 1;
    }
    assert lines[n..] == [];
    return On(c);
  }

  /** One entry of a directory. */
  method LookAt(q: Query, clock: Clock, before: Counters, e: Entry) returns (t: Turn)
    ensures t == Look(q, clock, before, e)
  {
    var c := before;
    if c.visited >= q.budget.entries || c.used >= q.budget.bytes || clock.late(c.visited) {
      return Stop(Page(c, true, None));
    }
    c := c.(visited := c.visited + 1);
    if |e.path| > DEPTH { return On(c.(skipped := c.skipped + 1)); }
    c := c.(position := c.position + 1);
    if c.position <= q.offset { return On(c); }
    if !q.text {
      if Contains(e.node.name, q.q) { c := Found(c, e.path, 0); }
    } else if e.node.Leaf? && e.node.regular {
      if e.node.size > Min(TEXT, q.budget.bytes - c.used) || e.node.read.Denied? {
        return On(c.(skipped := c.skipped + 1));
      }
      c := c.(used := c.used + e.node.size);
      if e.node.read.Binary? { return On(c.(skipped := c.skipped + 1)); }
      t := LookThrough(q, clock, c, e.path, e.node.read.lines);
      if t.Stop? { return; }
      c := t.c;
    }
    if |c.matches| >= MATCHES { return Stop(Full(q, clock, c, c.position, 0)); }
    return On(c);
  }

  /** One directory: its entries are looked at in order and its directories pushed. */
  method SearchDirectory(q: Query, clock: Clock, before: Counters, top: Frame, rest: seq<Frame>)
    returns (t: Turn, stack: seq<Frame>)
    ensures t.On? ==> stack == rest + Pushed(top.path, top.children)
    ensures forall more :: Scan(q, clock, before, Entries(top.path, top.children) + more) ==
                           if t.On? then Scan(q, clock, t.c, more) else t.page
  {
    var c, i := before, 0;
    stack := rest;
    assert top.children[0..] == top.children;
    while i < |top.children|
      invariant i <= |top.children|
      invariant stack + Pushed(top.path, top.children[i..]) == rest + Pushed(top.path, top.children)
      invariant forall more :: Scan(q, clock, before, Entries(top.path, top.children) + more) ==
                               Scan(q, clock, c, Entries(top.path, top.children[i..]) + more)
    {
      hide Look;
      var child := top.children[i];
      var e := Entry(top.path + [child.name], child);
      ghost var left := top.children[i..];
      assert left[0] == child && left[1..] == top.children[i + 1..];
      ScanOne(q, clock, c, e, Entries(top.path, left[1..]));
      var turn := LookAt(q, clock, c, e);
      if turn.Stop? { return turn, stack; }
      PushedOne(stack, top.path, left);
      if child.Dir? && |e.path| <= DEPTH { stack := stack + [Frame(e.path, child.children)]; }
      c := turn.c;
      i := i + 1;
    }
    assert top.children[i..] == [];
    assert stack + [] == stack;
    assert forall more: seq<Entry> :: [] + more == more;
    return On(c), stack;
  }

  lemma ScanOne(q: Query, clock: Clock, c: Counters, e: Entry, es: seq<Entry>)
    ensures forall more :: Scan(q, clock, c, [e] + es + more) ==
                           var t := Look(q, clock, c, e);
                           if t.On? then Scan(q, clock, t.c, es + more) else t.page
  {
    hide Look;
    forall more: seq<Entry>
      ensures ([e] + es + more)[0] == e && ([e] + es + more)[1..] == es + more
    {
    }
  }

  lemma PushedOne(stack: seq<Frame>, path: Path, left: seq<Node>)
    requires left != []
    ensures var p := path + [left[0].name];
            stack + Pushed(path, left) ==
            (if left[0].Dir? && |p| <= DEPTH then stack + [Frame(p, left[0].children)] else stack)
              + Pushed(path, left[1..])
  {
    var p, rest := path + [left[0].name], Pushed(path, left[1..]);
    if left[0].Dir? && |p| <= DEPTH {
      assert Pushed(path, left) == [Frame(p, left[0].children)] + rest;
      assert stack + ([Frame(p, left[0].children)] + rest) == stack + [Frame(p, left[0].children)] + rest;
    } else {
      assert Pushed(path, left) == [] + rest;
      assert [] + rest == rest;
    }
  }

  /** `search`, from the checked request to the page. */
  method Search(q: Query, clock: Clock, tree: seq<Node>) returns (p: Page)
    ensures p == SearchPage(q, clock, tree)
  {
    var c := START;
    var stack := [Frame([], tree)];
    while stack != []
      invariant Scan(q, clock, c, Visits(stack)) == SearchPage(q, clock, tree)
      decreases Weight(stack)
    {
      hide Scan, SearchPage;
      var top, rest := stack[|stack| - 1], stack[..|stack| - 1];
      PushedWeighsLess(top.path, top.children);
      WeightSplits(rest, Pushed(top.path, top.children));
      var t, next := SearchDirectory(q, clock, c, top, rest);
      if t.Stop? { return t.page; }
      c, stack := t.c, next;
    }
    return Page(c, false, None);
  }
}
