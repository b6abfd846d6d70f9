/** The worklist of `verify_objects` (infra/files/git_actions.py), whatever inspecting one object
    means: which objects it visits, in which order it gives up, and what it counts. */
module GitWalk {
  import opened Sets

  type Oid = string

  datatype Kind = Tree | Commit | Blob

  datatype Code = ObjectLimit | ObjectInvalid | Unsupported | GitFailed

  datatype Outcome<T> = Ok(value: T) | Fail(code: Code)

  datatype Item = Item(oid: Oid, kind: Kind, depth: nat)

  /** What inspecting an object yields: the objects it names and its size. */
  datatype Visit = Visit(children: seq<Item>, bytes: nat)

  type Inspector = (Item, nat) -> Outcome<Visit>

  datatype Report = Report(seen: set<Oid>, bytes: nat)

  const OBJECT_BYTES := 16777216
  const ALL_BYTES := 33554432
  const OBJECTS := 10000
  const DEPTH := 32

  predicate IsOid(oid: Oid) {
    |oid| == 40 && forall c :: c in oid ==> '0' <= c <= '9' || 'a' <= c <= 'f'
  }

  function Last(stack: seq<Item>): (item: Item)
    requires stack != []
  {
    stack[|stack| - 1]
  }

  function Walk(inspect: Inspector, stack: seq<Item>, seen: set<Oid>, total: nat): (r: Outcome<Report>)
    requires |seen| <= OBJECTS
    decreases OBJECTS - |seen|, |stack|
  {
    if stack == [] then Ok(Report(seen, total))
    else
      var item, rest := stack[|stack| - 1], stack[..|stack| - 1];
      if item.oid in seen then Walk(inspect, rest, seen, total)
      else if !IsOid(item.oid) || item.depth > DEPTH || |seen| >= OBJECTS then Fail(ObjectLimit)
      else match inspect(item, total)
        case Fail(code) => Fail(code)
        case Ok(visit) => Walk(inspect, rest + visit.children, seen + {item.oid}, total + visit.bytes)
  }

  predicate Accepts(inspect: Inspector, stack: seq<Item>, seen: set<Oid>, total: nat) {
    |seen| <= OBJECTS && Walk(inspect, stack, seen, total).Ok?
  }

  lemma WalkSkips(inspect: Inspector, stack: seq<Item>, seen: set<Oid>, total: nat)
    requires |seen| <= OBJECTS && stack != [] && Last(stack).oid in seen
    ensures Walk(inspect, stack, seen, total) == Walk(inspect, stack[..|stack| - 1], seen, total)
  {
  }

  lemma WalkVisits(inspect: Inspector, stack: seq<Item>, seen: set<Oid>, total: nat)
    requires |seen| <= OBJECTS && stack != [] && Last(stack).oid !in seen
    ensures Accepts(inspect, stack, seen, total) ==>
              IsOid(Last(stack).oid) && Last(stack).depth <= DEPTH && |seen| < OBJECTS
                && inspect(Last(stack), total).Ok?
    ensures IsOid(Last(stack).oid) && Last(stack).depth <= DEPTH && |seen| < OBJECTS
            && inspect(Last(stack), total).Ok? ==>
              Walk(inspect, stack, seen, total) ==
              Walk(inspect, stack[..|stack| - 1] + inspect(Last(stack), total).value.children,
                   seen + {Last(stack).oid}, total + inspect(Last(stack), total).value.bytes)
  {
  }

  lemma WalkStops(inspect: Inspector, stack: seq<Item>, seen: set<Oid>, total: nat)
    requires |seen| <= OBJECTS && stack != [] && Last(stack).oid !in seen
    ensures !IsOid(Last(stack).oid) || Last(stack).depth > DEPTH || |seen| >= OBJECTS ==>
              Walk(inspect, stack, seen, total) == Fail(ObjectLimit)
    ensures IsOid(Last(stack).oid) && Last(stack).depth <= DEPTH && |seen| < OBJECTS
            && inspect(Last(stack), total).Fail? ==>
              Walk(inspect, stack, seen, total) == Fail(inspect(Last(stack), total).code)
  {
  }

  /** One visit: the same answer comes from what is left. */
  lemma WalkMoves(inspect: Inspector, stack: seq<Item>, seen: set<Oid>, total: nat)
    returns (next: seq<Item>, seen': set<Oid>, total': nat)
    requires |seen| <= OBJECTS && stack != [] && Last(stack).oid !in seen && Accepts(inspect, stack, seen, total)
    ensures IsOid(Last(stack).oid) && inspect(Last(stack), total).Ok?
    ensures next == stack[..|stack| - 1] + inspect(Last(stack), total).value.children
    ensures seen' == seen + {Last(stack).oid} && total' == total + inspect(Last(stack), total).value.bytes
    ensures |seen| < |seen'| <= OBJECTS
    ensures Walk(inspect, next, seen', total') == Walk(inspect, stack, seen, total)
  {
    WalkVisits(inspect, stack, seen, total);
    next := stack[..|stack| - 1] + inspect(Last(stack), total).value.children;
    seen' := seen + {Last(stack).oid};
    total' := total + inspect(Last(stack), total).value.bytes;
  }

  // ----- what is visited ------------------------------------------------------------------------

  /** `o` was inspected under an item that `named` allows, and what it names lies within. */
  ghost predicate Inspected(inspect: Inspector, named: Item -> bool, o: Oid, within: set<Oid>) {
    exists item: Item, total: nat :: item.oid == o && named(item) && IsOid(o)
      && InspectedAt(inspect, item, total, within)
  }

  predicate InspectedAt(inspect: Inspector, item: Item, total: nat, within: set<Oid>) {
    inspect(item, total).Ok? && forall child :: child in inspect(item, total).value.children ==> child.oid in within
  }

  /** Objects allowed by `named` name only objects allowed by `named`. */
  ghost predicate Passes(inspect: Inspector, named: Item -> bool, all: set<Oid>) {
    forall item: Item, total: nat {:trigger inspect(item, total)} ::
      item.oid in all && named(item) && inspect(item, total).Ok? ==>
        forall child :: child in inspect(item, total).value.children ==> named(child)
  }

  lemma {:induction false} WalkCloses(inspect: Inspector, named: Item -> bool, stack: seq<Item>, seen: set<Oid>,
          total: nat, report: Report)
    requires |seen| <= OBJECTS && Walk(inspect, stack, seen, total) == Ok(report)
    requires (forall item :: item in stack ==> named(item)) && Passes(inspect, named, report.seen)
    ensures seen <= report.seen && |report.seen| <= OBJECTS
    ensures forall item :: item in stack ==> item.oid in report.seen
    ensures forall o :: o in report.seen - seen ==> Inspected(inspect, named, o, report.seen)
    decreases OBJECTS - |seen|, |stack|
  {
    if stack == [] {
    } else if Last(stack).oid in seen {
      WalkSkips(inspect, stack, seen, total);
      WalkCloses(inspect, named, stack[..|stack| - 1], seen, total, report);
      SplitLast(stack);
    } else {
      var item, rest := Last(stack), stack[..|stack| - 1];
      WalkVisits(inspect, stack, seen, total);
      var visit := inspect(item, total).value;
      SplitLast(stack);
      if item.oid in report.seen {
        WalkCloses(inspect, named, rest + visit.children, seen + {item.oid}, total + visit.bytes, report);
        assert forall other :: other in rest || other in visit.children ==> other in rest + visit.children;
        assert InspectedAt(inspect, item, total, report.seen);
      } else {
        SeenGrows(inspect, rest + visit.children, seen + {item.oid}, total + visit.bytes);
        assert false;
      }
    }
  }

  lemma SplitLast(stack: seq<Item>)
    requires stack != []
    ensures forall item :: item in stack <==> item in stack[..|stack| - 1] || item == Last(stack)
  {
    assert stack == stack[..|stack| - 1] + [Last(stack)];
  }

  lemma {:induction false} SeenGrows(inspect: Inspector, stack: seq<Item>, seen: set<Oid>, total: nat)
    requires Accepts(inspect, stack, seen, total)
    ensures seen <= Walk(inspect, stack, seen, total).value.seen
    decreases OBJECTS - |seen|, |stack|
  {
    if stack == [] {
    } else if Last(stack).oid in seen {
      WalkSkips(inspect, stack, seen, total);
      SeenGrows(inspect, stack[..|stack| - 1], seen, total);
    } else {
      WalkVisits(inspect, stack, seen, total);
      var visit := inspect(Last(stack), total).value;
      SeenGrows(inspect, stack[..|stack| - 1] + visit.children, seen + {Last(stack).oid}, total + visit.bytes);
    }
  }

  // ----- what is counted ----------------------------------------------------------------------------

  function Set(order: seq<Oid>): (r: set<Oid>) {
    set o | o in order
  }

  function Sum(bytesOf: map<Oid, nat>, order: seq<Oid>): (n: nat)
    requires forall o :: o in order ==> o in bytesOf
  {
    if order == [] then 0 else Sum(bytesOf, order[..|order| - 1]) + bytesOf[order[|order| - 1]]
  }

  predicate Once(order: seq<Oid>) {
    forall i, j :: 0 <= i < j < |order| ==> order[i] != order[j]
  }

  /** Objects visited so far, each once, with the bytes they came to. */
  predicate Visited(bytesOf: map<Oid, nat>, order: seq<Oid>, seen: set<Oid>, total: nat) {
    && Once(order) && (forall o :: o in order ==> o in bytesOf)
    && Set(order) == seen && |seen| == |order| && total == Sum(bytesOf, order)
  }

  lemma VisitedMore(bytesOf: map<Oid, nat>, order: seq<Oid>, seen: set<Oid>, total: nat, oid: Oid)
    requires Visited(bytesOf, order, seen, total) && oid in bytesOf && oid !in seen
    ensures Visited(bytesOf, order + [oid], seen + {oid}, total + bytesOf[oid])
  {
    assert (order + [oid])[..|order|] == order;
    assert forall o :: o in order + [oid] <==> o in order || o == oid;
    assert Set(order + [oid]) == seen + {oid};
    assert forall i :: 0 <= i < |order| ==> order[i] in Set(order);
  }

  /** Inspection reports true sizes and respects the budget it is given. */
  ghost predicate Measured(inspect: Inspector, bytesOf: map<Oid, nat>, budget: nat) {
    forall item: Item, total: nat :: inspect(item, total).Ok? ==>
      item.oid in bytesOf && inspect(item, total).value.bytes == bytesOf[item.oid]
        && total + bytesOf[item.oid] <= budget
  }

  lemma {:induction false} WalkCounts(inspect: Inspector, bytesOf: map<Oid, nat>, budget: nat,
                                      stack: seq<Item>, order: seq<Oid>, seen: set<Oid>, total: nat, report: Report)
    returns (all: seq<Oid>)
    requires Measured(inspect, bytesOf, budget) && Visited(bytesOf, order, seen, total) && total <= budget
    requires |seen| <= OBJECTS && Walk(inspect, stack, seen, total) == Ok(report)
    ensures Visited(bytesOf, all, report.seen, report.bytes) && report.bytes <= budget
    decreases OBJECTS - |seen|, |stack|
  {
    all := order;
    if stack == [] {
    } else if Last(stack).oid in seen {
      WalkSkips(inspect, stack, seen, total);
      all := WalkCounts(inspect, bytesOf, budget, stack[..|stack| - 1], order, seen, total, report);
    } else {
      var next, seen', total' := WalkMoves(inspect, stack, seen, total);
      VisitedMore(bytesOf, order, seen, total, Last(stack).oid);
      all := WalkCounts(inspect, bytesOf, budget, next, order + [Last(stack).oid], seen', total', report);
    }
  }

  // ----- what is accepted -------------------------------------------------------------------------------

  /** A family of objects that inspection admits while the budget lasts, and that names only itself. */
  ghost predicate Admits(inspect: Inspector, bytesOf: map<Oid, nat>, oids: set<Oid>, good: Item -> bool) {
    && (forall item :: good(item) ==> item.oid in oids && IsOid(item.oid) && item.depth <= DEPTH && item.oid in bytesOf)
    && (forall item: Item, total: nat {:trigger inspect(item, total)} ::
          good(item) && total + bytesOf[item.oid] <= ALL_BYTES ==>
            && inspect(item, total).Ok? && inspect(item, total).value.bytes == bytesOf[item.oid]
            && forall child :: child in inspect(item, total).value.children ==> good(child))
  }

  ghost predicate Affordable(bytesOf: map<Oid, nat>, oids: set<Oid>) {
    && |oids| <= OBJECTS
    && forall order :: Once(order) && (forall o :: o in order ==> o in oids && o in bytesOf) ==>
      Sum(bytesOf, order) <= ALL_BYTES
  }

  lemma RoomForMore(bytesOf: map<Oid, nat>, oids: set<Oid>, order: seq<Oid>, seen: set<Oid>, total: nat, oid: Oid)
    requires Affordable(bytesOf, oids) && Visited(bytesOf, order, seen, total) && seen <= oids
    requires oid in oids && oid in bytesOf && oid !in seen
    ensures |seen| < OBJECTS && total + bytesOf[oid] <= ALL_BYTES
  {
    VisitedMore(bytesOf, order, seen, total, oid);
    SubsetIsSmaller(seen + {oid}, oids);
    assert forall o :: o in order + [oid] ==> o in Set(order + [oid]);
    assert Sum(bytesOf, order + [oid]) <= ALL_BYTES;
  }

  lemma {:induction false} WalkAccepts(inspect: Inspector, bytesOf: map<Oid, nat>, oids: set<Oid>, good: Item -> bool,
                                       stack: seq<Item>, order: seq<Oid>, seen: set<Oid>, total: nat)
    requires Admits(inspect, bytesOf, oids, good) && Affordable(bytesOf, oids)
    requires Visited(bytesOf, order, seen, total) && seen <= oids && |seen| <= OBJECTS
    requires forall item :: item in stack ==> good(item)
    ensures Accepts(inspect, stack, seen, total)
    decreases OBJECTS - |seen|, |stack|
  {
    if stack == [] {
    } else if Last(stack).oid in seen {
      WalkSkips(inspect, stack, seen, total);
      WalkAccepts(inspect, bytesOf, oids, good, stack[..|stack| - 1], order, seen, total);
    } else {
      var item := Last(stack);
      SplitLast(stack);
      assert good(item);
      RoomForMore(bytesOf, oids, order, seen, total, item.oid);
      VisitedMore(bytesOf, order, seen, total, item.oid);
      WalkVisits(inspect, stack, seen, total);
      var visit := inspect(item, total).value;
      WalkAccepts(inspect, bytesOf, oids, good, stack[..|stack| - 1] + visit.children, order + [item.oid],
                  seen + {item.oid}, total + visit.bytes);
    }
  }
}
