/** `verify_objects` of infra/files/git_actions.py: every object of a prepared result is fetched,
    its identifier recomputed and its trees parsed, within fixed limits. */
module GitObjects {
  import opened GitWalk
  import opened GitTrees
  import opened Octets

  /** What `git cat-file` says of one object: its size, its kind and its content. */
  datatype Object = Object(size: nat, kind: Kind, data: Bytes)

  type Store = map<Oid, Object>

  type Hash = Bytes -> Oid

  function Decimal(n: nat): (data: Bytes) {
    (if n < 10 then [] else Decimal(n / 10)) + [(48 + n % 10) as byte]
  }

  function KindName(kind: Kind): (data: Bytes) {
    match kind
    case Tree => [116, 114, 101, 101]
    case Commit => [99, 111, 109, 109, 105, 116]
    case Blob => [98, 108, 111, 98]
  }

  /** The bytes that an object's identifier is the hash of. */
  function Hashed(kind: Kind, data: Bytes): (r: Bytes) {
    KindName(kind) + [SPACE] + Decimal(|data|) + [NUL] + data
  }

  lemma {:induction false} DecimalDigits(n: nat)
    ensures |Decimal(n)| > 0 && forall i :: 0 <= i < |Decimal(n)| ==> 48 <= Decimal(n)[i] <= 57
  {
    if n >= 10 { DecimalDigits(n / 10); }
  }

  /** The first of these bytes ends the same beginning in both. */
  lemma SplitsOnce(a: Bytes, b: Bytes, c: Bytes, d: Bytes, mark: byte)
    requires a + [mark] + b == c + [mark] + d && mark !in a && mark !in c
    ensures a == c && b == d
  {
    var all := a + [mark] + b;
    FirstMark(a, b, mark);
    FirstMark(c, d, mark);
    assert |a| == |c|;
    assert a == all[..|a|] && b == all[|a| + 1..];
    assert c == all[..|a|] && d == all[|a| + 1..];
  }

  lemma FirstMark(a: Bytes, b: Bytes, mark: byte)
    requires mark !in a
    ensures var all := a + [mark] + b;
            && |a| < |all| && all[|a|] == mark && forall i :: 0 <= i < |a| ==> all[i] != mark
  {
  }

  /** The hashed bytes begin with the kind's name and determine kind and content: two different objects
      never have the same bytes hashed. */
  lemma HashedDetermines(a: Kind, x: Bytes, b: Kind, y: Bytes)
    requires Hashed(a, x) == Hashed(b, y)
    ensures a == b && x == y
  {
    hide Decimal;
    DecimalDigits(|x|);
    DecimalDigits(|y|);
    assert Hashed(a, x) == KindName(a) + [SPACE] + (Decimal(|x|) + [NUL] + x);
    assert Hashed(b, y) == KindName(b) + [SPACE] + (Decimal(|y|) + [NUL] + y);
    SplitsOnce(KindName(a), Decimal(|x|) + [NUL] + x, KindName(b), Decimal(|y|) + [NUL] + y, SPACE);
    assert NUL !in Decimal(|x|) && NUL !in Decimal(|y|);
    SplitsOnce(Decimal(|x|), x, Decimal(|y|), y, NUL);
    assert |KindName(a)| == |KindName(b)| && KindName(a)[0] == KindName(b)[0];
  }

  /** A blob of three bytes and the empty tree, for example. */
  lemma HashedExamples(a: byte, b: byte, c: byte)
    ensures Hashed(Blob, [a, b, c]) == [98, 108, 111, 98, SPACE, 51, NUL, a, b, c]
    ensures Hashed(Tree, []) == [116, 114, 101, 101, SPACE, 48, NUL]
  {
  }

  function Min(a: int, b: int): (r: int) { if a < b then a else b }

  /** One object: its size, its kind, its content, its identifier and, for a tree, its entries. */
  function Inspect(store: Store, hash: Hash, item: Item, total: nat): (r: Outcome<Visit>) {
    if item.oid !in store then Fail(GitFailed)
    else
      var found := store[item.oid];
      if found.size > Min(OBJECT_BYTES, ALL_BYTES - total) then Fail(ObjectLimit)
      else if found.kind != item.kind then Fail(ObjectInvalid)
      else if |found.data| > OBJECT_BYTES then Fail(GitFailed)
      else if hash(Hashed(item.kind, found.data)) != item.oid then Fail(ObjectInvalid)
      else if !item.kind.Tree? then Ok(Visit([], |found.data|))
      else match ParseTree(found.data, 0)
        case Fail(code) => Fail(code)
        case Ok(entries) => Ok(Visit(Children(entries, item.depth + 1), |found.data|))
  }

  /** Which error an object gives, the first that applies: git has none of that name; it is too large, for
      one object or for what is left; it is not of the kind it was named as; git's output is cut; or it does
      not hash to its name. */
  lemma InspectErrors(store: Store, hash: Hash, item: Item, total: nat)
    ensures var r := Inspect(store, hash, item, total);
            && (item.oid !in store ==> r == Fail(GitFailed))
            && (item.oid in store ==>
                  var found := store[item.oid];
                  var large := found.size > OBJECT_BYTES || total + found.size > ALL_BYTES;
                  && (large ==> r == Fail(ObjectLimit))
                  && (!large && found.kind != item.kind ==> r == Fail(ObjectInvalid))
                  && (!large && found.kind == item.kind && |found.data| > OBJECT_BYTES ==> r == Fail(GitFailed))
                  && (!large && found.kind == item.kind && |found.data| <= OBJECT_BYTES ==>
                        hash(Hashed(item.kind, found.data)) != item.oid ==> r == Fail(ObjectInvalid)))
  {
    hide Hashed, ParseTree;
  }

  function Inspecting(store: Store, hash: Hash): (inspect: Inspector) {
    (item: Item, total: nat) => Inspect(store, hash, item, total)
  }

  /** What is to be published: a tree, perhaps a commit and its parent. */
  datatype Result = Result(tree: Oid, commit: Oid, parent: Oid)

  function Roots(result: Result): (stack: seq<Item>) {
    [Item(result.tree, Tree, 0)]
    + (if result.commit == "" then [] else [Item(result.commit, Commit, 0)])
    + (if result.parent == "" then [] else [Item(result.parent, Commit, 0)])
  }

  function Verify(store: Store, hash: Hash, result: Result): (r: Outcome<Report>) {
    Walk(Inspecting(store, hash), Roots(result), {}, 0)
  }

  // ----- what acceptance means -------------------------------------------------------------------

  predicate Sound(store: Store, hash: Hash, oid: Oid) {
    && IsOid(oid) && oid in store
    && hash(Hashed(store[oid].kind, store[oid].data)) == oid
    && |store[oid].data| <= OBJECT_BYTES
    && (store[oid].kind.Tree? ==> ParseTree(store[oid].data, 0).Ok?)
  }

  function Entries(store: Store, oid: Oid): (r: seq<Entry>) {
    if oid in store && store[oid].kind.Tree? && ParseTree(store[oid].data, 0).Ok?
    then ParseTree(store[oid].data, 0).value else []
  }

  predicate Names(store: Store, oid: Oid, child: Oid) {
    exists i :: 0 <= i < |Entries(store, oid)| && Hex(Entries(store, oid)[i].oid) == child
  }

  lemma InspectedIsSound(store: Store, hash: Hash, item: Item, total: nat)
    requires IsOid(item.oid) && Inspect(store, hash, item, total).Ok?
    ensures Sound(store, hash, item.oid) && store[item.oid].kind == item.kind
    ensures Inspect(store, hash, item, total).value.children == Children(Entries(store, item.oid), item.depth + 1)
    ensures Inspect(store, hash, item, total).value.bytes == |store[item.oid].data|
    ensures total <= ALL_BYTES && store[item.oid].size <= ALL_BYTES - total
  {
    if !item.kind.Tree? { assert Children([], item.depth + 1) == []; }
  }

  lemma VisitedIsSound(store: Store, hash: Hash, named: Item -> bool, o: Oid, all: set<Oid>)
    requires Inspected(Inspecting(store, hash), named, o, all)
    ensures Sound(store, hash, o)
    ensures forall c :: Names(store, o, c) ==> c in all
    ensures exists item :: named(item) && item.oid == o && item.kind == store[o].kind
  {
    var item: Item, total: nat :|
      item.oid == o && named(item) && IsOid(o) && InspectedAt(Inspecting(store, hash), item, total, all);
    InspectedIsSound(store, hash, item, total);
    forall c | Names(store, o, c)
      ensures c in all
    {
      var i :| 0 <= i < |Entries(store, o)| && Hex(Entries(store, o)[i].oid) == c;
      var child := Children(Entries(store, o), item.depth + 1)[i];
      assert child in Inspect(store, hash, item, total).value.children && child.oid == c;
    }
  }

  /** All that is seen is sound, and what it names is seen. */
  lemma SeenIsSound(store: Store, hash: Hash, result: Result)
    requires Verify(store, hash, result).Ok?
    ensures var all := Verify(store, hash, result).value.seen;
            && |all| <= OBJECTS
            && (forall item :: item in Roots(result) ==> item.oid in all)
            && forall o :: o in all ==> Sound(store, hash, o) && forall c :: Names(store, o, c) ==> c in all
  {
    var report := Verify(store, hash, result).value;
    WalkCloses(Inspecting(store, hash), (_: Item) => true, Roots(result), {}, 0, report);
    forall o | o in report.seen
      ensures Sound(store, hash, o) && forall c :: Names(store, o, c) ==> c in report.seen
    {
      assert o in report.seen - {};
      VisitedIsSound(store, hash, (_: Item) => true, o, report.seen);
    }
  }

  /** A path of tree entries. */
  ghost predicate Path(store: Store, path: seq<Oid>) {
    path != [] && forall i :: 0 <= i < |path| - 1 ==> Names(store, path[i], path[i + 1])
  }

  lemma {:induction false} PathStaysInside(store: Store, all: set<Oid>, path: seq<Oid>)
    requires forall o, c :: o in all && Names(store, o, c) ==> c in all
    requires Path(store, path) && path[0] in all
    ensures path[|path| - 1] in all
    decreases |path|
  {
    if |path| > 1 {
      assert Names(store, path[0], path[1]);
      PathStaysInside(store, all, path[1..]);
    }
  }

  /** When the result is accepted, every object that its tree reaches through any path of entries
      was fetched, hashes to its own name, and if it is a tree parses to the last byte. */
  lemma AcceptedIsClosed(store: Store, hash: Hash, result: Result, path: seq<Oid>)
    requires Verify(store, hash, result).Ok? && Path(store, path)
    requires path[0] == result.tree || (path[0] != "" && path[0] in {result.commit, result.parent})
    ensures path[|path| - 1] in Verify(store, hash, result).value.seen
    ensures Sound(store, hash, path[|path| - 1])
  {
    SeenIsSound(store, hash, result);
    assert Item(result.tree, Tree, 0) in Roots(result);
    assert result.commit != "" ==> Item(result.commit, Commit, 0) in Roots(result);
    assert result.parent != "" ==> Item(result.parent, Commit, 0) in Roots(result);
    PathStaysInside(store, Verify(store, hash, result).value.seen, path);
  }

  predicate IsRoot(result: Result, o: Oid) {
    o == result.tree || (o != "" && (o == result.commit || o == result.parent))
  }

  /** Some path of tree entries leads from the result to the object. */
  ghost predicate Reachable(store: Store, result: Result, o: Oid) {
    exists path :: ReachedBy(store, result, path, o)
  }

  ghost predicate ReachedBy(store: Store, result: Result, path: seq<Oid>, o: Oid) {
    Path(store, path) && IsRoot(result, path[0]) && path[|path| - 1] == o
  }

  lemma ReachableGoesOn(store: Store, result: Result, o: Oid, child: Oid)
    requires Reachable(store, result, o) && Names(store, o, child)
    ensures Reachable(store, result, child)
  {
    var path :| ReachedBy(store, result, path, o);
    var longer := path + [child];
    forall i | 0 <= i < |longer| - 1 ensures Names(store, longer[i], longer[i + 1]) {
      if i < |path| - 1 { assert Names(store, path[i], path[i + 1]); }
    }
    assert ReachedBy(store, result, longer, child);
  }

  lemma ReachablePasses(store: Store, hash: Hash, result: Result, all: set<Oid>, named: Item -> bool)
    requires forall item :: named(item) <==> Reachable(store, result, item.oid)
    requires forall o :: o in all ==> IsOid(o)
    ensures Passes(Inspecting(store, hash), named, all)
  {
    var inspect := Inspecting(store, hash);
    forall item: Item, total: nat {:trigger Inspect(store, hash, item, total)} |
      item.oid in all && named(item) && Inspect(store, hash, item, total).Ok?
      ensures forall child :: child in inspect(item, total).value.children ==> named(child)
    {
      InspectedIsSound(store, hash, item, total);
      assert inspect(item, total) == Inspect(store, hash, item, total);
      var children := Children(Entries(store, item.oid), item.depth + 1);
      forall i | 0 <= i < |children| ensures named(children[i]) {
        assert Hex(Entries(store, item.oid)[i].oid) == children[i].oid;
        ReachableGoesOn(store, result, item.oid, children[i].oid);
      }
    }
  }

  /** What is seen on the way to an acceptance is exactly what the result reaches. */
  lemma SeenIsReachable(store: Store, hash: Hash, result: Result)
    requires Verify(store, hash, result).Ok?
    ensures forall o :: o in Verify(store, hash, result).value.seen <==> Reachable(store, result, o)
  {
    var report := Verify(store, hash, result).value;
    var named: Item -> bool := (item: Item) => Reachable(store, result, item.oid);
    SeenIsSound(store, hash, result);
    forall item | item in Roots(result) ensures named(item) {
      assert ReachedBy(store, result, [item.oid], item.oid);
    }
    ReachablePasses(store, hash, result, report.seen, named);
    WalkCloses(Inspecting(store, hash), named, Roots(result), {}, 0, report);
    forall o | o in report.seen ensures Reachable(store, result, o) {
      assert o in report.seen - {};
      VisitedIsSound(store, hash, named, o, report.seen);
    }
    forall o | Reachable(store, result, o) ensures o in report.seen {
      var path :| ReachedBy(store, result, path, o);
      AcceptedIsClosed(store, hash, result, path);
    }
  }

  // ----- counts ----------------------------------------------------------------------------------------

  function BytesOf(store: Store): (r: map<Oid, nat>) {
    map o | o in store :: |store[o].data|
  }

  predicate Honest(store: Store) {
    forall o :: o in store ==> store[o].size == |store[o].data|
  }

  /** The report counts distinct objects and their true bytes. The byte limit holds when the sizes
      that git reports are true, and is otherwise overrun by one object at most. */
  lemma ReportIsTrue(store: Store, hash: Hash, result: Result) returns (all: seq<Oid>)
    requires Verify(store, hash, result).Ok?
    ensures var r := Verify(store, hash, result).value;
            && |r.seen| <= OBJECTS && Visited(BytesOf(store), all, r.seen, r.bytes)
            && r.bytes <= if Honest(store) then ALL_BYTES else ALL_BYTES + OBJECT_BYTES
  {
    SeenIsSound(store, hash, result);
    var budget := if Honest(store) then ALL_BYTES else ALL_BYTES + OBJECT_BYTES;
    var inspect := Inspecting(store, hash);
    forall item: Item, total: nat | inspect(item, total).Ok?
      ensures item.oid in BytesOf(store) && inspect(item, total).value.bytes == BytesOf(store)[item.oid]
      ensures total + BytesOf(store)[item.oid] <= budget
    {
      assert inspect(item, total) == Inspect(store, hash, item, total);
    }
    assert Set([]) == {};
    all := WalkCounts(inspect, BytesOf(store), budget, Roots(result), [], {}, 0, Verify(store, hash, result).value);
  }

  // ----- what is accepted ------------------------------------------------------------------------------------

  /** A closed family of sound objects, named by their true kinds, whose entries go ever deeper. */
  ghost predicate Family(store: Store, hash: Hash, oids: set<Oid>, depth: map<Oid, nat>) {
    && Honest(store)
    && (forall o :: o in oids ==> Sound(store, hash, o) && o in depth && depth[o] <= DEPTH)
    && (forall o :: o in oids ==> EntriesFit(store, oids, depth, o))
  }

  predicate EntriesFit(store: Store, oids: set<Oid>, depth: map<Oid, nat>, o: Oid)
    requires o in depth
  {
    forall i :: 0 <= i < |Entries(store, o)| ==>
      Fits(store, oids, depth, Item(Hex(Entries(store, o)[i].oid), KindOf(Entries(store, o)[i].mode), depth[o] + 1))
  }

  predicate Fits(store: Store, oids: set<Oid>, depth: map<Oid, nat>, item: Item) {
    item.oid in oids && item.oid in store && store[item.oid].kind == item.kind
    && item.oid in depth && item.depth <= depth[item.oid]
  }

  lemma FamilyIsInspected(store: Store, hash: Hash, oids: set<Oid>, depth: map<Oid, nat>, item: Item, total: nat)
    requires Family(store, hash, oids, depth) && Fits(store, oids, depth, item)
    requires total + |store[item.oid].data| <= ALL_BYTES
    ensures Inspect(store, hash, item, total).Ok?
    ensures Inspect(store, hash, item, total).value.bytes == |store[item.oid].data|
    ensures forall child :: child in Inspect(store, hash, item, total).value.children ==>
              Fits(store, oids, depth, child)
  {
    assert Sound(store, hash, item.oid);
    InspectedIsSound(store, hash, item, total);
    var entries := Entries(store, item.oid);
    assert EntriesFit(store, oids, depth, item.oid);
    var children := Children(entries, item.depth + 1);
    forall i | 0 <= i < |children|
      ensures Fits(store, oids, depth, children[i])
    {
      assert Fits(store, oids, depth, Item(Hex(entries[i].oid), KindOf(entries[i].mode), depth[item.oid] + 1));
    }
  }

  /** Nothing well formed is refused: a result whose objects form such a family, within the limits
      on their number and bytes, is accepted. */
  lemma FamiliesAreAccepted(store: Store, hash: Hash, result: Result, oids: set<Oid>, depth: map<Oid, nat>)
    requires Family(store, hash, oids, depth) && Affordable(BytesOf(store), oids)
    requires forall item :: item in Roots(result) ==> Fits(store, oids, depth, item)
    ensures Verify(store, hash, result).Ok?
  {
    var inspect := Inspecting(store, hash);
    var good := (item: Item) => Fits(store, oids, depth, item);
    forall item: Item | Fits(store, oids, depth, item)
      ensures item.oid in oids && IsOid(item.oid) && item.depth <= DEPTH && item.oid in BytesOf(store)
    {
      assert Sound(store, hash, item.oid);
    }
    forall item: Item, total: nat | good(item) && total + BytesOf(store)[item.oid] <= ALL_BYTES
      ensures inspect(item, total).Ok? && inspect(item, total).value.bytes == BytesOf(store)[item.oid]
      ensures forall child :: child in inspect(item, total).value.children ==> good(child)
    {
      FamilyIsInspected(store, hash, oids, depth, item, total);
      assert inspect(item, total) == Inspect(store, hash, item, total);
    }
    assert Admits(inspect, BytesOf(store), oids, good);
    assert Set([]) == {};
    WalkAccepts(inspect, BytesOf(store), oids, good, Roots(result), [], {}, 0);
    assert Accepts(inspect, Roots(result), {}, 0);
  }

  // ----- the kind under which an object is named ------------------------------------------------------------------

  /** Every root and every entry of a visited tree names its object under the kind given here. */
  ghost predicate Agree(store: Store, result: Result, seen: set<Oid>, kinds: map<Oid, Kind>) {
    && (forall item :: item in Roots(result) ==> NamedAs(kinds, item))
    && (forall o :: o in seen ==> EntriesAgree(store, kinds, o))
  }

  predicate NamedAs(kinds: map<Oid, Kind>, item: Item) {
    item.oid in kinds && kinds[item.oid] == item.kind
  }

  predicate EntriesAgree(store: Store, kinds: map<Oid, Kind>, o: Oid) {
    forall i :: 0 <= i < |Entries(store, o)| ==>
      NamedAs(kinds, Item(Hex(Entries(store, o)[i].oid), KindOf(Entries(store, o)[i].mode), 0))
  }

  function TrueKinds(store: Store): (kinds: map<Oid, Kind>) {
    map o | o in store :: store[o].kind
  }

  lemma KindsPassOn(store: Store, hash: Hash, seen: set<Oid>, kinds: map<Oid, Kind>)
    requires forall o :: o in seen ==> EntriesAgree(store, kinds, o) && IsOid(o)
    ensures Passes(Inspecting(store, hash), (item: Item) => NamedAs(kinds, item), seen)
  {
    var inspect := Inspecting(store, hash);
    forall item: Item, total: nat {:trigger Inspect(store, hash, item, total)} | item.oid in seen
      && Inspect(store, hash, item, total).Ok?
      ensures forall child :: child in inspect(item, total).value.children ==> NamedAs(kinds, child)
    {
      InspectedIsSound(store, hash, item, total);
      assert inspect(item, total) == Inspect(store, hash, item, total);
      var entries := Entries(store, item.oid);
      var children := Children(entries, item.depth + 1);
      forall i | 0 <= i < |children|
        ensures NamedAs(kinds, children[i])
      {
        assert NamedAs(kinds, Item(Hex(entries[i].oid), KindOf(entries[i].mode), 0));
      }
    }
  }

  lemma AgreedAreTrue(store: Store, hash: Hash, result: Result, kinds: map<Oid, Kind>)
    requires Verify(store, hash, result).Ok? && Agree(store, result, Verify(store, hash, result).value.seen, kinds)
    ensures forall o :: o in Verify(store, hash, result).value.seen ==>
              o in store && o in kinds && kinds[o] == store[o].kind
  {
    var report := Verify(store, hash, result).value;
    var named := (item: Item) => NamedAs(kinds, item);
    SeenIsSound(store, hash, result);
    KindsPassOn(store, hash, report.seen, kinds);
    WalkCloses(Inspecting(store, hash), named, Roots(result), {}, 0, report);
    forall o | o in report.seen
      ensures o in store && o in kinds && kinds[o] == store[o].kind
    {
      assert o in report.seen - {};
      VisitedIsSound(store, hash, named, o, report.seen);
    }
  }

  /** Every root and every entry of a tree that the result reaches names its object under the kind
      given here: no object is named under two kinds. */
  ghost predicate AllAgree(store: Store, result: Result, kinds: map<Oid, Kind>) {
    && (forall item :: item in Roots(result) ==> NamedAs(kinds, item))
    && (forall o :: Reachable(store, result, o) ==> EntriesAgree(store, kinds, o))
  }

  /** An object seen before is not checked against the kind it is now named under. So the names that
      an accepted result reaches are all true exactly when no object is named under two kinds. */
  lemma NamesAreTrueExactly(store: Store, hash: Hash, result: Result)
    requires Verify(store, hash, result).Ok?
    ensures AllAgree(store, result, TrueKinds(store)) <==> exists kinds :: AllAgree(store, result, kinds)
  {
    var all := Verify(store, hash, result).value.seen;
    SeenIsReachable(store, hash, result);
    forall kinds ensures AllAgree(store, result, kinds) <==> Agree(store, result, all, kinds) {
      hide EntriesAgree, Reachable;
    }
    SeenNamesAreTrue(store, hash, result);
    if kinds :| AllAgree(store, result, kinds) { assert Agree(store, result, all, kinds); }
  }

  lemma SeenNamesAreTrue(store: Store, hash: Hash, result: Result)
    requires Verify(store, hash, result).Ok?
    ensures Agree(store, result, Verify(store, hash, result).value.seen, TrueKinds(store)) <==>
            exists kinds :: Agree(store, result, Verify(store, hash, result).value.seen, kinds)
  {
    var all := Verify(store, hash, result).value.seen;
    if kinds :| Agree(store, result, all, kinds) {
      AgreedAreTrue(store, hash, result, kinds);
      SeenIsSound(store, hash, result);
      forall item | item in Roots(result) ensures NamedAs(TrueKinds(store), item) {}
      forall o | o in all
        ensures EntriesAgree(store, TrueKinds(store), o)
      {
        forall i | 0 <= i < |Entries(store, o)|
          ensures NamedAs(TrueKinds(store), Item(Hex(Entries(store, o)[i].oid), KindOf(Entries(store, o)[i].mode), 0))
        {
          assert Names(store, o, Hex(Entries(store, o)[i].oid));
          assert NamedAs(kinds, Item(Hex(Entries(store, o)[i].oid), KindOf(Entries(store, o)[i].mode), 0));
        }
      }
    }
  }

  /** A tree holding one empty directory twice: as a file and as a directory. */
  predicate Twice(store: Store, hash: Hash, root: Oid, file: Bytes, dir: Bytes, sub: Bytes) {
    && ValidEntry(Entry(PLAIN, file, sub)) && ValidEntry(Entry(DIRECTORY, dir, sub)) && |file| + |dir| < 1000
    && root in store && Hex(sub) in store && root != Hex(sub) && IsOid(root)
    && store[Hex(sub)] == Object(0, Tree, []) && hash(Hashed(Tree, [])) == Hex(sub)
    && store[root].kind.Tree? && store[root].size == |store[root].data|
    && store[root].data == WriteTree([Entry(PLAIN, file, sub), Entry(DIRECTORY, dir, sub)])
    && hash(Hashed(Tree, store[root].data)) == root
  }

  lemma TwoWritten(file: Bytes, dir: Bytes, sub: Bytes)
    requires |file| + |dir| < 1000 && |sub| == 20
    ensures |WriteTree([Entry(PLAIN, file, sub), Entry(DIRECTORY, dir, sub)])| <= 2000
  {
    var entries := [Entry(PLAIN, file, sub), Entry(DIRECTORY, dir, sub)];
    assert entries[1..] == [entries[1]] && entries[1..][1..] == [];
    assert WriteTree(entries[1..]) == Written(entries[1]) + [];
  }

  lemma TwiceListed(store: Store, hash: Hash, root: Oid, file: Bytes, dir: Bytes, sub: Bytes)
    requires Twice(store, hash, root, file, dir, sub)
    ensures ParseTree(store[root].data, 0) == Ok([Entry(PLAIN, file, sub), Entry(DIRECTORY, dir, sub)])
    ensures Children([Entry(PLAIN, file, sub), Entry(DIRECTORY, dir, sub)], 1) ==
            [Item(Hex(sub), Blob, 1), Item(Hex(sub), Tree, 1)]
  {
    TreesRoundTrip(store[root].data, [Entry(PLAIN, file, sub), Entry(DIRECTORY, dir, sub)]);
  }

  lemma TwiceWalked(store: Store, hash: Hash, root: Oid, sub: Bytes, total: nat)
    requires root != Hex(sub) && |sub| == 20 && total <= 2000
    requires Hex(sub) in store && store[Hex(sub)] == Object(0, Tree, []) && hash(Hashed(Tree, [])) == Hex(sub)
    ensures Accepts(Inspecting(store, hash), [Item(Hex(sub), Blob, 1), Item(Hex(sub), Tree, 1)], {root}, total)
  {
    var inspect := Inspecting(store, hash);
    var stack := [Item(Hex(sub), Blob, 1), Item(Hex(sub), Tree, 1)];
    assert inspect(Last(stack), total) == Ok(Visit([], 0));
    WalkVisits(inspect, stack, {root}, total);
    assert stack[..1] + [] == [Item(Hex(sub), Blob, 1)];
    var seen := {root} + {Hex(sub)};
    WalkSkips(inspect, [Item(Hex(sub), Blob, 1)], seen, total);
    assert Walk(inspect, [], seen, total).Ok?;
  }

  /** And one can be named under two kinds: the tree is accepted with a file that is a directory. */
  lemma SubtreeNamedAsFile(store: Store, hash: Hash, root: Oid, file: Bytes, dir: Bytes, sub: Bytes)
    requires Twice(store, hash, root, file, dir, sub)
    ensures Verify(store, hash, Result(root, "", "")).Ok?
    ensures |Entries(store, root)| > 0 && Hex(Entries(store, root)[0].oid) == Hex(sub)
    ensures KindOf(Entries(store, root)[0].mode) == Blob && store[Hex(sub)].kind == Tree
  {
    TwiceListed(store, hash, root, file, dir, sub);
    TwoWritten(file, dir, sub);
    var inspect, top := Inspecting(store, hash), [Item(root, Tree, 0)];
    assert inspect(top[0], 0) == Ok(Visit([Item(Hex(sub), Blob, 1), Item(Hex(sub), Tree, 1)], |store[root].data|));
    WalkVisits(inspect, top, {}, 0);
    assert Roots(Result(root, "", "")) == top;
    assert top[..0] + [Item(Hex(sub), Blob, 1), Item(Hex(sub), Tree, 1)] ==
      [Item(Hex(sub), Blob, 1), Item(Hex(sub), Tree, 1)];
    assert {} + {root} == {root};
    TwiceWalked(store, hash, root, sub, |store[root].data|);
  }

  // ----- the program -----------------------------------------------------------------------------------------------

  /** One object, in the order of the source's checks. */
  method Examine(store: Store, hash: Hash, item: Item, total: nat) returns (r: Outcome<Visit>)
    ensures r == Inspect(store, hash, item, total)
  {
    if item.oid !in store { return Fail(GitFailed); }
    var found := store[item.oid];
    if found.size > Min(OBJECT_BYTES, ALL_BYTES - total) { return Fail(ObjectLimit); }
    if found.kind != item.kind { return Fail(ObjectInvalid); }
    if |found.data| > OBJECT_BYTES { return Fail(GitFailed); }
    if hash(Hashed(item.kind, found.data)) != item.oid { return Fail(ObjectInvalid); }
    if item.kind != Tree { return Ok(Visit([], |found.data|)); }
    var children := PushEntries(found.data, item.depth + 1);
    if children.Fail? { return Fail(children.code); }
    return Ok(Visit(children.value, |found.data|));
  }

  /** An object not seen before: the new stack, the objects seen and the bytes so far. */
  method TakeNext(store: Store, hash: Hash, stack: seq<Item>, seen: set<Oid>, total: nat)
    returns (r: Outcome<(seq<Item>, set<Oid>, nat)>)
    requires |seen| <= OBJECTS && stack != [] && Last(stack).oid !in seen
    ensures r.Fail? ==> Walk(Inspecting(store, hash), stack, seen, total) == Fail(r.code)
    ensures r.Ok? ==>
              && |seen| < |r.value.1| <= OBJECTS
              && Walk(Inspecting(store, hash), stack, seen, total) ==
                Walk(Inspecting(store, hash), r.value.0, r.value.1, r.value.2)
  {
    var item := stack[|stack| - 1];
    ghost var inspect := Inspecting(store, hash);
    assert inspect(item, total) == Inspect(store, hash, item, total);
    WalkStops(inspect, stack, seen, total);
    if !IsOid(item.oid) || item.depth > DEPTH || |seen| >= OBJECTS { return Fail(ObjectLimit); }
    var visit := Examine(store, hash, item, total);
    if visit.Fail? { return Fail(visit.code); }
    WalkVisits(inspect, stack, seen, total);
    r := Ok((stack[..|stack| - 1] + visit.value.children, seen + {item.oid}, total + visit.value.bytes));
  }

  method VerifyObjects(store: Store, hash: Hash, result: Result) returns (r: Outcome<Report>)
    ensures r == Verify(store, hash, result)
  {
    var stack := Roots(result);
    var seen: set<Oid> := {};
    var total: nat := 0;
    while stack != []
      invariant |seen| <= OBJECTS
      invariant Walk(Inspecting(store, hash), stack, seen, total) == Verify(store, hash, result)
      decreases OBJECTS - |seen|, |stack|
    {
      if stack[|stack| - 1].oid in seen {
        WalkSkips(Inspecting(store, hash), stack, seen, total);
        stack := stack[..|stack| - 1];
      } else {
        var next := TakeNext(store, hash, stack, seen, total);
        if next.Fail? { return Fail(next.code); }
        stack, seen, total := next.value.0, next.value.1, next.value.2;
      }
    }
    return Ok(Report(seen, total));
  }
}
