/** `owner` and `copy_unit` of infra/deploy/publish.py: the ownership of a restored path and the
    copy of one project from its staged files. */
module RestoreCopy {

  datatype Option<T> = None | Some(value: T)

  /** The components of a relative path; `[]` is the project directory itself. */
  type Path = seq<string>

  datatype Item =
    | Directory(mode: nat)
    | File(size: nat, sha: string, mode: nat)
    | Symlink(target: string, mode: nat)

  datatype Node = Node(item: Item, uid: nat, mode: nat)

  type Content = map<Path, Node>

  /** One project of the registry: what it must hold, what was staged, and the order of copying:
      directories and files by depth, then symbolic links. */
  datatype Unit = Unit(root: nat, inventory: map<Path, Item>, staging: map<Path, Item>, order: seq<Path>)

  const RUNNER := 10001

  // ----- owner ------------------------------------------------------------------------------

  predicate IsHex(c: char) {
    '0' <= c <= '9' || 'a' <= c <= 'f'
  }

  predicate IsUuid(s: string) {
    |s| == 36
    && forall i :: 0 <= i < 36 ==> if i == 8 || i == 13 || i == 18 || i == 23 then s[i] == '-' else IsHex(s[i])
  }

  predicate IsNative(s: string) {
    IsUuid(s) || ("terminal-" <= s && IsUuid(s[9..])) || ("preview-" <= s && IsUuid(s[8..]))
  }

  /** The owner and mode of a path, or none where the path belongs to no known class. */
  function Owner(path: Path, item: Item): (r: Option<(nat, nat)>)
    requires path != []
    ensures r.Some? && r.value.0 == RUNNER ==>
              path[0] in {"workspace", "git-common"} || (path[0] in {"native", "workspaces"} && |path| > 1)
    ensures r.Some? && path[0] == "attachments" ==> r.value.0 == 0 && r.value.1 in {0x1ED, 0x124}
  {
    var runner := Some((RUNNER, item.mode % 512));
    var private := Some((0, 0x1C0));
    if path[0] == "workspace" || path[0] == "git-common" then runner
    else if path[0] == "native" then
      if |path| == 1 then private else if IsNative(path[1]) then runner else None
    else if path[0] == "workspaces" then
      if |path| == 1 then private
      else if !IsUuid(path[1]) then None
      else if |path| == 2 then private
      else if path[2] != "checkout" then None
      else runner
    else if path[0] == "attachments" then
      if |path| > 1 && !IsUuid(path[1]) then None
      else if |path| > 2 && (!IsUuid(path[2]) || |path| != 3) then None
      else Some((0, if item.Directory? then 0x1ED else 0x124))
    else None
  }

  // ----- copy_unit ----------------------------------------------------------------------------

  function Parent(path: Path): (p: Path)
    requires path != []
  {
    path[..|path| - 1]
  }

  /** The runner's paths: workspace and git-common with all that is in them, what lies below native, and
      the checkouts of derived workspaces. */
  predicate RunnersPath(path: Path)
    requires path != []
  {
    || path[0] == "workspace" || path[0] == "git-common"
    || (path[0] == "native" && |path| > 1)
    || (path[0] == "workspaces" && |path| > 2 && path[2] == "checkout")
  }

  /** Paths with admissible names. */
  predicate KnownPath(path: Path)
    requires path != []
  {
    || path[0] == "workspace" || path[0] == "git-common"
    || (path[0] == "native" && (|path| > 1 ==> IsNative(path[1])))
    || (path[0] == "workspaces" && (|path| > 1 ==> IsUuid(path[1])) && (|path| > 2 ==> path[2] == "checkout"))
    || (path[0] == "attachments" && |path| <= 3 && forall i :: 1 <= i < |path| ==> IsUuid(path[i]))
  }

  /** Who owns a path and with which mode, exactly: the runner its paths, with their own modes; root all
      else, attachments so that nobody may write them, and the rest closed to everybody. */
  lemma OwnerExactly(path: Path, item: Item)
    requires path != []
    ensures Owner(path, item).Some? <==> KnownPath(path)
    ensures Owner(path, item).Some? ==>
              Owner(path, item).value ==
              if RunnersPath(path) then (RUNNER, item.mode % 512)
              else (0, if path[0] != "attachments" then 0x1C0 else if item.Directory? then 0x1ED else 0x124)
  {
    hide IsUuid, IsNative;
  }

  /** The names: lower-case hexadecimal digits, with hyphens where a UUID has them, and in native homes a
      prefix before it or none. */
  lemma NamesExactly(s: string)
    ensures forall c :: IsHex(c) <==> c in "0123456789abcdef"
    ensures IsUuid(s) <==> |s| == 36 && forall i :: 0 <= i < 36 ==>
                             if i in {8, 13, 18, 23} then s[i] == '-' else s[i] in "0123456789abcdef"
    ensures IsUuid(s) ==> IsNative(s) && IsNative("terminal-" + s) && IsNative("preview-" + s)
    ensures IsNative(s) ==> IsUuid(s) || (|s| == 45 && s[..9] == "terminal-") || (|s| == 44 && s[..8] == "preview-")
  {
    HexDigits();
    assert ("terminal-" + s)[9..] == s && ("preview-" + s)[8..] == s;
  }

  lemma HexDigits()
    ensures forall c :: IsHex(c) <==> c in "0123456789abcdef"
  {
    var digits := "0123456789abcdef";
    assert forall i :: 0 <= i < 10 ==> digits[i] == ('0' as int + i) as char;
    assert forall i :: 10 <= i < 16 ==> digits[i] == ('a' as int + i - 10) as char;
    forall c: char | IsHex(c) ensures c in digits {
      assert c == digits[if c <= '9' then c as int - '0' as int else c as int - 'a' as int + 10];
    }
  }

  /** A path belongs to a known class only if its parent does, and nothing below a directory of the
      runner belongs to anyone else. */
  lemma OwnersNest(path: Path, item: Item, above: Item)
    requires |path| > 1 && Owner(path, item).Some? && above.Directory?
    ensures Owner(Parent(path), above).Some?
    ensures Owner(Parent(path), above).value.0 == RUNNER ==> Owner(path, item).value.0 == RUNNER
  {
    hide IsUuid, IsNative;
  }

  /** What copying one path makes, or none where it raises. */
  function CopyOne(u: Unit, content: Content, path: Path): (r: Option<Content>)
    requires path != [] && path in u.inventory
  {
    var item := u.inventory[path];
    var owner := Owner(path, item);
    if owner.None? || !(|path| == 1 || (Parent(path) in content && content[Parent(path)].item.Directory?)) then None
    else if path in content && !(item.Directory? && content[path].item.Directory?) then None
    else if item.File? then
      if path in u.staging && u.staging[path].File?
      then Some(content[path := Node(u.staging[path], owner.value.0, owner.value.1)]) else None
    else Some(content[path := Node(item, owner.value.0, if item.Symlink? then 0x1FF else owner.value.1)])
  }

  /** The registry lists every path but the project itself once, each directory before what is in it. */
  predicate Listed(u: Unit) {
    && (forall i :: 0 <= i < |u.order| ==> u.order[i] != [] && u.order[i] in u.inventory)
    && (forall p :: p in u.inventory && p != [] ==> p in u.order)
    && (forall i, j :: 0 <= i < j < |u.order| ==> u.order[i] != u.order[j])
    && (forall i, j :: 0 <= i < j < |u.order| ==> Sooner(u, u.order[i], u.order[j]))
  }

  predicate Sooner(u: Unit, a: Path, b: Path) {
    a in u.inventory && b in u.inventory
    && if u.inventory[a].Symlink? then u.inventory[b].Symlink?
       else u.inventory[b].Symlink? || |a| <= |b|
  }

  function CopyUpTo(u: Unit, k: nat): (r: Option<Content>)
    requires Listed(u) && k <= |u.order|
  {
    if k == 0 then Some(map[])
    else
      var before := CopyUpTo(u, k - 1);
      if before.None? then None else CopyOne(u, before.value, u.order[k - 1])
  }

  /** What can be checked of a path before any copying. */
  predicate Placeable(u: Unit, path: Path) {
    && path != [] && path in u.inventory
    && Owner(path, u.inventory[path]).Some?
    && (|path| == 1 || (Parent(path) in u.inventory && u.inventory[Parent(path)].Directory?))
    && (u.inventory[path].File? ==> path in u.staging && u.staging[path].File?)
  }

  predicate Copyable(u: Unit) {
    forall p :: p in u.inventory && p != [] ==> Placeable(u, p)
  }

  /** The comparison after publication: type, size, digest and link target. */
  predicate Same(a: Item, b: Item) {
    match a
    case Directory(_) => b.Directory?
    case File(size, sha, _) => b.File? && b.size == size && b.sha == sha
    case Symlink(target, _) => b.Symlink? && b.target == target
  }

  /** That is all but the mode. */
  lemma SameButMode(a: Item, b: Item)
    ensures Same(a, b) <==> a.(mode := 0) == b.(mode := 0)
  {
  }

  predicate Holds(u: Unit, content: Content) {
    && (forall p :: p in content ==> p != [] && p in u.inventory)
    && (forall p :: p in u.inventory && p != [] ==> p in content && Same(content[p].item, u.inventory[p]))
  }

  predicate Faithful(u: Unit) {
    forall p :: p in u.inventory && p != [] && u.inventory[p].File? ==>
      p in u.staging && Same(u.staging[p], u.inventory[p])
  }

  function NodeOf(u: Unit, path: Path): (n: Node)
    requires Placeable(u, path)
  {
    var item := u.inventory[path];
    var owner := Owner(path, item).value;
    if item.File? then Node(u.staging[path], owner.0, owner.1)
    else Node(item, owner.0, if item.Symlink? then 0x1FF else owner.1)
  }

  ghost predicate Copied(u: Unit, content: Content, k: nat)
    requires k <= |u.order|
  {
    && (forall p :: p in content ==> exists i :: 0 <= i < k && u.order[i] == p)
    && (forall i :: 0 <= i < k ==>
          Placeable(u, u.order[i]) && u.order[i] in content && content[u.order[i]] == NodeOf(u, u.order[i]))
  }

  /** A directory is listed before everything in it. */
  lemma ParentSooner(u: Unit, k: nat)
    requires Listed(u) && k < |u.order| && |u.order[k]| > 1
    requires Parent(u.order[k]) in u.inventory && u.inventory[Parent(u.order[k])].Directory?
    ensures exists i :: 0 <= i < k && u.order[i] == Parent(u.order[k])
  {
    var i :| 0 <= i < |u.order| && u.order[i] == Parent(u.order[k]);
    assert i > k ==> Sooner(u, u.order[k], u.order[i]);
  }

  lemma {:induction false} CopyProgress(u: Unit, k: nat)
    requires Listed(u) && k <= |u.order|
    ensures CopyUpTo(u, k).Some? <==> forall i :: 0 <= i < k ==> Placeable(u, u.order[i])
    ensures CopyUpTo(u, k).Some? ==> Copied(u, CopyUpTo(u, k).value, k)
  {
    hide Owner;
    if k > 0 {
      CopyProgress(u, k - 1);
      if CopyUpTo(u, k - 1).Some? {
        var content := CopyUpTo(u, k - 1).value;
        var path := u.order[k - 1];
        assert path !in content;
        CopyLast(u, content, k);
        assert CopyUpTo(u, k) == CopyOne(u, content, path);
        if Placeable(u, path) { CopiedMore(u, content, k); }
      }
    }
  }

  lemma NextCopies(u: Unit, content: Content, k: nat)
    requires Listed(u) && k < |u.order| && Copied(u, content, k)
    ensures CopyOne(u, content, u.order[k]).Some? <==> Placeable(u, u.order[k])
  {
    hide Owner;
    NotCopiedYet(u, content, k);
    CopyLast(u, content, k + 1);
  }

  lemma NotCopiedYet(u: Unit, content: Content, k: nat)
    requires Listed(u) && k < |u.order| && Copied(u, content, k)
    ensures u.order[k] !in content
  {
    hide Owner;
  }

  lemma CopyLast(u: Unit, content: Content, k: nat)
    requires Listed(u) && 0 < k <= |u.order| && Copied(u, content, k - 1) && u.order[k - 1] !in content
    ensures CopyOne(u, content, u.order[k - 1]).Some? <==> Placeable(u, u.order[k - 1])
    ensures Placeable(u, u.order[k - 1]) ==>
              CopyOne(u, content, u.order[k - 1]).value == content[u.order[k - 1] := NodeOf(u, u.order[k - 1])]
  {
    hide Owner, Copied;
    if |u.order[k - 1]| > 1 { ParentIsCopied(u, content, k); }
  }

  lemma ParentIsCopied(u: Unit, content: Content, k: nat)
    requires Listed(u) && 0 < k <= |u.order| && Copied(u, content, k - 1) && |u.order[k - 1]| > 1
    ensures var parent := Parent(u.order[k - 1]);
            (parent in content && content[parent].item.Directory?)
            <==> (parent in u.inventory && u.inventory[parent].Directory?)
  {
    hide Owner, Copied, Listed, Placeable;
    var parent := Parent(u.order[k - 1]);
    if parent in u.inventory && u.inventory[parent].Directory? { ParentIsThere(u, content, k); }
    if parent in content { CopiedNode(u, content, k - 1, parent); }
  }

  lemma ParentIsThere(u: Unit, content: Content, k: nat)
    requires Listed(u) && 0 < k <= |u.order| && Copied(u, content, k - 1) && |u.order[k - 1]| > 1
    requires Parent(u.order[k - 1]) in u.inventory && u.inventory[Parent(u.order[k - 1])].Directory?
    ensures Parent(u.order[k - 1]) in content
  {
    hide Owner, Placeable, NodeOf;
    ParentSooner(u, k - 1);
  }

  lemma CopiedNode(u: Unit, content: Content, k: nat, p: Path)
    requires Listed(u) && k <= |u.order| && Copied(u, content, k) && p in content
    ensures p in u.inventory && Placeable(u, p) && content[p] == NodeOf(u, p)
    ensures content[p].item.Directory? <==> u.inventory[p].Directory?
  {
    hide Owner;
  }

  lemma CopiedMore(u: Unit, content: Content, k: nat)
    requires Listed(u) && 0 < k <= |u.order| && Copied(u, content, k - 1) && Placeable(u, u.order[k - 1])
    ensures Copied(u, content[u.order[k - 1] := NodeOf(u, u.order[k - 1])], k)
  {
    hide Owner;
    var path := u.order[k - 1];
    var more := content[path := NodeOf(u, path)];
    forall p | p in more
      ensures exists i :: 0 <= i < k && u.order[i] == p
    {
      if p == path { assert u.order[k - 1] == p; }
      else { var i :| 0 <= i < k - 1 && u.order[i] == p; }
    }
  }

  lemma CopyCovers(u: Unit)
    requires Listed(u)
    ensures CopyUpTo(u, |u.order|).Some? <==> Copyable(u)
    ensures Copyable(u) ==> var content := CopyUpTo(u, |u.order|).value;
                            content.Keys == u.inventory.Keys - {[]} && forall p :: p in content ==>
                              content[p] == NodeOf(u, p)
  {
    hide Owner;
    var n := |u.order|;
    CopyProgress(u, n);
    forall p | p in u.inventory && p != []
      ensures exists i :: 0 <= i < n && u.order[i] == p
    {
    }
    if CopyUpTo(u, n).Some? {
      var content := CopyUpTo(u, n).value;
      assert content.Keys == u.inventory.Keys - {[]};
    }
  }

  lemma NodeIsSame(u: Unit, p: Path)
    requires Placeable(u, p)
    ensures Same(NodeOf(u, p).item, u.inventory[p]) <==>
            (u.inventory[p].File? ==> Same(u.staging[p], u.inventory[p]))
  {
    hide Owner;
  }

  /** `copy_unit` succeeds exactly when every path has a known class, a directory to lie in and a
      staged file; and the copy then equals the inventory exactly when the staged bytes do. */
  lemma CopyIsExact(u: Unit)
    requires Listed(u)
    ensures CopyUpTo(u, |u.order|).Some? <==> Copyable(u)
    ensures Copyable(u) ==> (Holds(u, CopyUpTo(u, |u.order|).value) <==> Faithful(u))
  {
    CopyCovers(u);
    if Copyable(u) { EqualWhenStagedEqual(u, CopyUpTo(u, |u.order|).value); }
  }

  /** Every node of a finished copy has that owner, and that mode unless it is a link. */
  lemma CopyGivesOwners(u: Unit, p: Path)
    requires Listed(u) && Copyable(u) && p in u.inventory && p != []
    ensures CopyUpTo(u, |u.order|).Some? && p in CopyUpTo(u, |u.order|).value
    ensures var node, item := CopyUpTo(u, |u.order|).value[p], u.inventory[p];
            && node.uid == (if RunnersPath(p) then RUNNER else 0)
            && node.mode == if item.Symlink? then 0x1FF
                            else if RunnersPath(p) then item.mode % 512
                            else if p[0] != "attachments" then 0x1C0 else if item.Directory? then 0x1ED else 0x124
  {
    hide Owner;
    CopyCovers(u);
    OwnerExactly(p, u.inventory[p]);
  }

  lemma EqualWhenStagedEqual(u: Unit, content: Content)
    requires Copyable(u) && content.Keys == u.inventory.Keys - {[]}
    requires forall p :: p in content ==> Placeable(u, p) && content[p] == NodeOf(u, p)
    ensures Holds(u, content) <==> Faithful(u)
  {
    hide Owner;
    forall p | p in u.inventory && p != []
      ensures p in content && Placeable(u, p) && content[p] == NodeOf(u, p)
      ensures u.inventory[p].File? ==> p in u.staging
      ensures Same(content[p].item, u.inventory[p]) <==> (u.inventory[p].File? ==> Same(u.staging[p], u.inventory[p]))
    {
      assert p in content;
      NodeIsSame(u, p);
    }
    assert Holds(u, content) ==> Faithful(u);
    assert Faithful(u) ==> Holds(u, content);
  }

  method CopyUnit(u: Unit) returns (r: Option<Content>)
    requires Listed(u)
    ensures r.Some? <==> Copyable(u)
    ensures r.Some? ==> r.value.Keys == u.inventory.Keys - {[]}
    ensures r.Some? ==> (Holds(u, r.value) <==> Faithful(u))
    ensures r == CopyUpTo(u, |u.order|)
  {
    hide CopyOne, Holds, Faithful, Copyable;
    var content: Content := map[];
    var k := 0;
    while k < |u.order|
      invariant k <= |u.order| && CopyUpTo(u, k) == Some(content)
    {
      var next := CopyOne(u, content, u.order[k]);
      assert CopyUpTo(u, k + 1) == next;
      if next.None? {
        CopyProgress(u, k + 1);
        CopyFailsEarly(u, k + 1, |u.order|);
        CopyCovers(u);
        return None;
      }
      content := next.value;
      k := k + 1;
    }
    CopyIsExact(u);
    CopyCovers(u);
    return Some(content);
  }

  lemma CopyFailsEarly(u: Unit, k: nat, n: nat)
    requires Listed(u) && k <= n <= |u.order| && CopyUpTo(u, k).None?
    ensures CopyUpTo(u, n).None?
    decreases n - k
  {
    if k < n { CopyFailsEarly(u, k + 1, n); }
  }
}
