/** The keyset-paged listing of conversations (apps/api/src/history.ts) over a database that does
    not change between pages. */
module HistoryPages {

  datatype Option<T> = None | Some(value: T)

  /** `asked` is the time of the latest question, if there was one. */
  datatype Session = Session(id: nat, project: nat, archived: bool, created: int, updated: int, asked: Option<int>)

  datatype Shown = Active | Archived | All

  datatype Order = Created | Updated | Queried

  datatype Query = Query(q: string, shown: Shown, project: Option<nat>, order: Order, selected: Option<nat>)

  /** What orders the listing, the greatest first. */
  datatype Key = Key(priority: nat, time: int, id: nat)

  /** What a cursor is bound to; the default order leaves itself out. */
  datatype Filter =
    | Plain(q: string, shown: Shown, project: Option<nat>)
    | Ordered(q: string, shown: Shown, project: Option<nat>, order: Order, selected: Option<nat>)

  datatype Cursor = Cursor(filter: Filter, key: Key)

  datatype Page = Page(rows: seq<Session>, next: Option<Cursor>)

  /** Whether the title or a message of a session contains the text asked for. */
  type Hits = (string, Session) -> bool

  function FilterOf(q: Query): (f: Filter) {
    if q.order.Created? then Plain(q.q, q.shown, q.project) else Ordered(q.q, q.shown, q.project, q.order, q.selected)
  }

  function KeyOf(q: Query, s: Session): (k: Key) {
    Key(if q.order.Updated? && q.selected == Some(s.id) then 1 else 0,
        match q.order
          case Created => s.created
          case Updated => s.updated
          case Queried => if s.asked.Some? then s.asked.value else s.created,
        s.id)
  }

  predicate Below(a: Key, b: Key) {
    || a.priority < b.priority
    || (a.priority == b.priority && (a.time < b.time || (a.time == b.time && a.id < b.id)))
  }

  predicate Wanted(hits: Hits, q: Query, s: Session) {
    && (q.shown.All? || s.archived == q.shown.Archived?)
    && (q.project.None? || q.project.value == s.project)
    && (q.q == "" || hits(q.q, s))
  }

  /** The order of the listing, from the last to the first: by creation; by the last change, but for the
      selected conversation, which comes first; or by the latest question, creation standing in for it. */
  lemma OrderOfListing(q: Query, a: Session, b: Session)
    requires a.id != b.id
    ensures q.order.Created? ==>
              (Below(KeyOf(q, a), KeyOf(q, b)) <==> a.created < b.created || (a.created == b.created && a.id < b.id))
    ensures q.order.Updated? && q.selected == Some(b.id) ==> Below(KeyOf(q, a), KeyOf(q, b))
    ensures q.order.Updated? && q.selected != Some(a.id) && q.selected != Some(b.id) ==>
              (Below(KeyOf(q, a), KeyOf(q, b)) <==> a.updated < b.updated || (a.updated == b.updated && a.id < b.id))
    ensures q.order.Queried? && a.asked.Some? && b.asked.Some? ==>
              (Below(KeyOf(q, a), KeyOf(q, b)) <==>
                 a.asked.value < b.asked.value || (a.asked.value == b.asked.value && a.id < b.id))
    ensures q.order.Queried? && a.asked.None? && b.asked.Some? ==>
              (Below(KeyOf(q, a), KeyOf(q, b)) <==>
                 a.created < b.asked.value || (a.created == b.asked.value && a.id < b.id))
    ensures q.order.Queried? && a.asked.None? && b.asked.None? ==>
              (Below(KeyOf(q, a), KeyOf(q, b)) <==> a.created < b.created || (a.created == b.created && a.id < b.id))
  {
  }

  /** Which conversations are wanted. */
  lemma WantedExactly(hits: Hits, q: Query, s: Session)
    ensures q.q == "" && q.project.None? ==>
              (Wanted(hits, q, s) <==>
                 q.shown.All? || (q.shown.Archived? && s.archived) || (q.shown.Active? && !s.archived))
    ensures q.project.Some? && q.project.value != s.project ==> !Wanted(hits, q, s)
    ensures q.project == Some(s.project) ==>
              (Wanted(hits, q, s) <==> Wanted(hits, q.(project := None), s))
    ensures q.q != "" ==> (Wanted(hits, q, s) <==> hits(q.q, s) && Wanted(hits, q.(q := ""), s))
  {
  }

  // ----- ORDER BY ----------------------------------------------------------------------------------

  predicate Distinct(db: set<Session>) {
    forall s, t :: s in db && t in db && s.id == t.id ==> s == t
  }

  /** Strictly descending by key. */
  predicate Descending(q: Query, rows: seq<Session>) {
    forall i, j :: 0 <= i < j < |rows| ==> Below(KeyOf(q, rows[j]), KeyOf(q, rows[i]))
  }

  ghost predicate Lists(q: Query, rows: seq<Session>, db: set<Session>) {
    Descending(q, rows) && forall s :: s in rows <==> s in db
  }

  predicate IsTop(q: Query, db: set<Session>, top: Session) {
    top in db && forall s :: s in db && s != top ==> Below(KeyOf(q, s), KeyOf(q, top))
  }

  lemma {:induction false} SomeTop(q: Query, db: set<Session>) returns (top: Session)
    requires db != {} && Distinct(db)
    ensures IsTop(q, db, top)
    decreases |db|
  {
    top :| top in db;
    if db != {top} {
      var rest := db - {top};
      assert db == rest + {top};
      var other := SomeTop(q, rest);
      if Below(KeyOf(q, top), KeyOf(q, other)) { top := other; }
    }
  }

  /** The rows of a result, sorted as the database sorts them. */
  ghost function Sorted(q: Query, db: set<Session>): (rows: seq<Session>)
    requires Distinct(db)
    decreases |db|
  {
    if db == {} then []
    else
      assert exists top :: IsTop(q, db, top) by { var top := SomeTop(q, db); }
      var top :| IsTop(q, db, top);
      [top] + Sorted(q, db - {top})
  }

  lemma TopLists(q: Query, top: Session, rest: seq<Session>, db: set<Session>)
    requires IsTop(q, db, top) && Lists(q, rest, db - {top})
    ensures Lists(q, [top] + rest, db)
  {
    var rows := [top] + rest;
    forall i, j | 0 <= i < j < |rows|
      ensures Below(KeyOf(q, rows[j]), KeyOf(q, rows[i]))
    {
      assert rows[j] == rest[j - 1] && rest[j - 1] in rest;
    }
    forall s
      ensures s in rows <==> s in db
    {
      assert s in rows <==> s == top || s in rest;
    }
  }

  lemma {:induction false} SortedLists(q: Query, db: set<Session>)
    requires Distinct(db)
    ensures Lists(q, Sorted(q, db), db) && |Sorted(q, db)| == |db|
    decreases |db|
  {
    hide Lists, Below, KeyOf;
    if db == {} {
      NothingLists(q);
    } else {
      var top := Sorted(q, db)[0];
      SortedLists(q, db - {top});
      assert Sorted(q, db) == [top] + Sorted(q, db - {top});
      TopLists(q, top, Sorted(q, db - {top}), db);
    }
  }

  lemma NothingLists(q: Query)
    ensures Lists(q, [], {})
  {
  }

  lemma FirstIsInside(rows: seq<Session>)
    ensures rows != [] ==> rows[0] in rows
  {
  }

  /** There is only one such listing. */
  lemma {:induction false} ListingIsUnique(q: Query, a: seq<Session>, b: seq<Session>, db: set<Session>)
    requires Lists(q, a, db) && Lists(q, b, db)
    ensures a == b
    decreases |a|
  {
    if a == [] {
      FirstIsInside(b);
    } else {
      assert a[0] in db && a[0] in b;
      assert b[0] in db && b[0] in a;
      var i :| 0 <= i < |a| && a[i] == b[0];
      var j :| 0 <= j < |b| && b[j] == a[0];
      assert a[0] == b[0];
      TailLists(q, a, db);
      TailLists(q, b, db);
      ListingIsUnique(q, a[1..], b[1..], db - {a[0]});
    }
  }

  lemma TailLists(q: Query, rows: seq<Session>, db: set<Session>)
    requires Lists(q, rows, db) && rows != []
    ensures Lists(q, rows[1..], db - {rows[0]})
  {
    forall s
      ensures s in rows[1..] <==> s in db - {rows[0]}
    {
      if s in rows[1..] {
        var i :| 0 <= i < |rows[1..]| && rows[1..][i] == s;
        assert rows[i + 1] == s;
      }
      if s in db - {rows[0]} {
        var i :| 0 <= i < |rows| && rows[i] == s;
        assert rows[1..][i - 1] == s;
      }
    }
  }

  // ----- one page -------------------------------------------------------------------------------------

  ghost function Selected(hits: Hits, q: Query, db: set<Session>, before: Option<Key>): (r: set<Session>)
    requires Distinct(db)
    ensures Distinct(r)
  {
    set s | s in db && Wanted(hits, q, s) && (before.None? || Below(KeyOf(q, s), before.value))
  }

  /** Two listings share their cursors exactly when text, filters and order are the same, and, but for the
      default order, the selection. */
  lemma CursorsAreShared(a: Query, b: Query)
    ensures FilterOf(a) == FilterOf(b) <==>
            && a.q == b.q && a.shown == b.shown && a.project == b.project && a.order == b.order
            && (a.order.Created? || a.selected == b.selected)
  {
  }

  /** A cursor of other filters or another order is refused. */
  function Decoded(q: Query, cursor: Option<Cursor>): (r: Option<Option<Key>>)
    ensures r.None? <==> cursor.Some? && cursor.value.filter != FilterOf(q)
  {
    if cursor.None? then Some(None)
    else if cursor.value.filter != FilterOf(q) then None
    else Some(Some(cursor.value.key))
  }

  ghost function PageOf(hits: Hits, q: Query, db: set<Session>, before: Option<Key>, limit: nat): (p: Page)
    requires Distinct(db) && limit >= 1
  {
    var sorted := Sorted(q, Selected(hits, q, db, before));
    var rows := if |sorted| <= limit + 1 then sorted else sorted[..limit + 1];
    if |rows| > limit then Page(rows[..limit], Some(Cursor(FilterOf(q), KeyOf(q, rows[limit - 1]))))
    else Page(rows, None)
  }

  /** A page holds the first `limit` of what is selected, and leads on exactly when there is more. */
  lemma PageExactly(hits: Hits, q: Query, db: set<Session>, before: Option<Key>, limit: nat)
    requires Distinct(db) && limit >= 1
    ensures var sorted, page := Sorted(q, Selected(hits, q, db, before)), PageOf(hits, q, db, before, limit);
            && page.rows == (if |sorted| < limit then sorted else sorted[..limit])
            && (page.next.Some? <==> |sorted| >= limit + 1)
  {
    hide Sorted;
    var sorted := Sorted(q, Selected(hits, q, db, before));
    assert |sorted| == limit ==> sorted[..limit] == sorted;
  }

  lemma SortedIsWanted(hits: Hits, q: Query, db: set<Session>, before: Option<Key>, last: Session)
    requires Distinct(db) && last in Selected(hits, q, db, before)
    ensures forall s :: s in Selected(hits, q, db, Some(KeyOf(q, last))) <==>
                        s in Selected(hits, q, db, before) && Below(KeyOf(q, s), KeyOf(q, last))
  {
  }

  /** What is below the key of the k-th row is what comes after it. */
  lemma RestOfListing(hits: Hits, q: Query, db: set<Session>, before: Option<Key>, k: nat)
    requires Distinct(db) && 1 <= k <= |Sorted(q, Selected(hits, q, db, before))|
    ensures var sorted := Sorted(q, Selected(hits, q, db, before));
            Sorted(q, Selected(hits, q, db, Some(KeyOf(q, sorted[k - 1])))) == sorted[k..]
  {
    hide Sorted;
    var all := Selected(hits, q, db, before);
    var sorted := Sorted(q, all);
    var after := Selected(hits, q, db, Some(KeyOf(q, sorted[k - 1])));
    SortedLists(q, all);
    SortedLists(q, after);
    assert sorted[k - 1] in all;
    assert forall s :: s in after <==> s in all && Below(KeyOf(q, s), KeyOf(q, sorted[k - 1])) by {
      SortedIsWanted(hits, q, db, before, sorted[k - 1]);
    }
    TailIsBelow(q, sorted, all, after, k);
    ListingIsUnique(q, Sorted(q, after), sorted[k..], after);
  }

  lemma TailIsBelow(q: Query, rows: seq<Session>, all: set<Session>, after: set<Session>, k: nat)
    requires Lists(q, rows, all) && 1 <= k <= |rows|
    requires forall s :: s in after <==> s in all && Below(KeyOf(q, s), KeyOf(q, rows[k - 1]))
    ensures Lists(q, rows[k..], after)
  {
    hide KeyOf;
    forall s
      ensures s in rows[k..] <==> s in after
    {
      if s in rows[k..] {
        var i :| 0 <= i < |rows[k..]| && rows[k..][i] == s;
        assert rows[k + i] == s;
      }
      if s in after {
        var i :| 0 <= i < |rows| && rows[i] == s;
        assert i < k - 1 ==> Below(KeyOf(q, rows[k - 1]), KeyOf(q, rows[i]));
        assert rows[k..][i - k] == s;
      }
    }
  }

  /** Following the cursors, each page with a limit of its own. */
  ghost function Follow(hits: Hits, q: Query, db: set<Session>, before: Option<Key>,
                        limits: nat -> nat, n: nat): (pages: seq<Page>)
    requires Distinct(db) && forall i :: limits(i) >= 1
    decreases |Selected(hits, q, db, before)|
  {
    var page := PageOf(hits, q, db, before, limits(n));
    if page.next.None? then [page]
    else
      PageShrinks(hits, q, db, before, limits(n));
      [page] + Follow(hits, q, db, Some(page.next.value.key), limits, n + 1)
  }

  lemma PageShrinks(hits: Hits, q: Query, db: set<Session>, before: Option<Key>, limit: nat)
    requires Distinct(db) && limit >= 1 && PageOf(hits, q, db, before, limit).next.Some?
    ensures var next := PageOf(hits, q, db, before, limit).next.value.key;
            && |Selected(hits, q, db, Some(next))| == |Selected(hits, q, db, before)| - limit
            && Sorted(q, Selected(hits, q, db, Some(next))) == Sorted(q, Selected(hits, q, db, before))[limit..]
            && PageOf(hits, q, db, before, limit).rows == Sorted(q, Selected(hits, q, db, before))[..limit]
  {
    var sorted := Sorted(q, Selected(hits, q, db, before));
    var rows := if |sorted| <= limit + 1 then sorted else sorted[..limit + 1];
    assert rows[..limit] == sorted[..limit] && rows[limit - 1] == sorted[limit - 1];
    RestOfListing(hits, q, db, before, limit);
    SortedLists(q, Selected(hits, q, db, before));
    SortedLists(q, Selected(hits, q, db, Some(KeyOf(q, sorted[limit - 1]))));
  }

  function AllRows(pages: seq<Page>): (rows: seq<Session>) {
    if pages == [] then [] else pages[0].rows + AllRows(pages[1..])
  }

  lemma {:induction false} PagesAreTheListing(hits: Hits, q: Query, db: set<Session>, before: Option<Key>,
          limits: nat -> nat, n: nat)
    requires Distinct(db) && forall i :: limits(i) >= 1
    ensures AllRows(Follow(hits, q, db, before, limits, n)) == Sorted(q, Selected(hits, q, db, before))
    decreases |Selected(hits, q, db, before)|
  {
    hide Sorted, PageOf, Selected;
    var page, pages := PageOf(hits, q, db, before, limits(n)), Follow(hits, q, db, before, limits, n);
    var sorted := Sorted(q, Selected(hits, q, db, before));
    if page.next.None? {
      LastPage(hits, q, db, before, limits(n));
      assert pages == [page] && pages[1..] == [];
      assert page.rows + [] == page.rows;
    } else {
      PageShrinks(hits, q, db, before, limits(n));
      var next := Some(page.next.value.key);
      PagesAreTheListing(hits, q, db, next, limits, n + 1);
      assert pages[1..] == Follow(hits, q, db, next, limits, n + 1);
      SortedLists(q, Selected(hits, q, db, before));
      assert sorted == sorted[..limits(n)] + sorted[limits(n)..];
    }
  }

  lemma LastPage(hits: Hits, q: Query, db: set<Session>, before: Option<Key>, limit: nat)
    requires Distinct(db) && limit >= 1 && PageOf(hits, q, db, before, limit).next.None?
    ensures PageOf(hits, q, db, before, limit).rows == Sorted(q, Selected(hits, q, db, before))
  {
  }

  /** In any of the three orders and with any page sizes: the pages from the first to the last hold
      every wanted conversation exactly once, in one descending order. The chain ends by itself. */
  lemma EveryConversationOnce(hits: Hits, q: Query, db: set<Session>, limits: nat -> nat)
    requires Distinct(db) && forall i :: limits(i) >= 1
    ensures var rows := AllRows(Follow(hits, q, db, None, limits, 0));
            && Descending(q, rows)
            && (forall s :: s in rows <==> s in db && Wanted(hits, q, s))
            && (forall i, j :: 0 <= i < j < |rows| ==> rows[i] != rows[j])
  {
    PagesAreTheListing(hits, q, db, None, limits, 0);
    SortedLists(q, Selected(hits, q, db, None));
  }

  /** A cursor leads on exactly in the listing that gave it: any other text, filter, order or
      selection is refused. */
  lemma CursorBelongsToItsListing(hits: Hits, q: Query, db: set<Session>, before: Option<Key>, limit: nat, other: Query)
    requires Distinct(db) && limit >= 1 && PageOf(hits, q, db, before, limit).next.Some?
    ensures Decoded(other, PageOf(hits, q, db, before, limit).next).Some? <==> FilterOf(other) == FilterOf(q)
    ensures Decoded(other, PageOf(hits, q, db, before, limit).next).Some? ==>
              other.order == q.order && Selected(hits, other, db, None) == Selected(hits, q, db, None)
  {
    hide Sorted;
  }
}
