/** Git tree objects as `verify_objects` of infra/files/git_actions.py parses them. */
module GitTrees {
  import opened GitWalk
  import opened Octets

  datatype Entry = Entry(mode: Bytes, name: Bytes, oid: Bytes)

  const SPACE: byte := 32
  const NUL: byte := 0
  const SLASH: byte := 47
  const DOT: byte := 46

  // ----- tree parser -------------------------------------------------------------------------

  const DIRECTORY: Bytes := [52, 48, 48, 48, 48]
  const PLAIN: Bytes := [49, 48, 48, 54, 52, 52]
  const EXECUTABLE: Bytes := [49, 48, 48, 55, 53, 53]
  const LINK: Bytes := [49, 50, 48, 48, 48, 48]

  predicate IsMode(mode: Bytes) {
    mode == DIRECTORY || mode == PLAIN || mode == EXECUTABLE || mode == LINK
  }

  predicate IsName(name: Bytes) {
    name != [] && name != [DOT] && name != [DOT, DOT] && SLASH !in name
  }

  function KindOf(mode: Bytes): (k: Kind) {
    if mode == DIRECTORY then Tree else Blob
  }

  /** The entry at `at` and the place after it. */
  function NextEntry(data: Bytes, at: nat): (r: Outcome<(Entry, nat)>)
    requires at < |data|
    ensures r.Ok? ==> at < r.value.1 <= |data|
  {
    var split := Find(data, SPACE, at);
    var end := Find(data, NUL, split + 1);
    if split < 0 || end < 0 || end + 21 > |data| then Fail(ObjectInvalid)
    else
      var mode, name := data[at..split], data[split + 1..end];
      if !IsName(name) then Fail(ObjectInvalid)
      else if !IsMode(mode) then Fail(Unsupported)
      else Ok((Entry(mode, name, data[end + 1..end + 21]), end + 21))
  }

  /** An entry that is cut or has a bad name is invalid; one with a good name and a mode that git does not
      write is not supported. */
  lemma EntryErrors(data: Bytes, at: nat)
    requires at < |data|
    ensures var split := Find(data, SPACE, at);
            var end := Find(data, NUL, split + 1);
            var whole := split >= 0 && end >= 0 && end + 21 <= |data|;
            && (!whole ==> NextEntry(data, at) == Fail(ObjectInvalid))
            && (whole && !IsName(data[split + 1..end]) ==> NextEntry(data, at) == Fail(ObjectInvalid))
            && (whole && IsName(data[split + 1..end]) && !IsMode(data[at..split]) ==>
                  NextEntry(data, at) == Fail(Unsupported))
  {
  }

  function ParseTree(data: Bytes, at: nat): (r: Outcome<seq<Entry>>)
    requires at <= |data|
    decreases |data| - at
  {
    if at == |data| then Ok([])
    else match NextEntry(data, at)
      case Fail(code) => Fail(code)
      case Ok(next) =>
        match ParseTree(data, next.1)
        case Fail(code) => Fail(code)
        case Ok(rest) => Ok([next.0] + rest)
  }

  predicate ValidEntry(e: Entry) {
    IsMode(e.mode) && IsName(e.name) && NUL !in e.name && |e.oid| == 20
  }

  function Written(e: Entry): (data: Bytes) {
    e.mode + [SPACE] + e.name + [NUL] + e.oid
  }

  function WriteTree(entries: seq<Entry>): (data: Bytes) {
    if entries == [] then [] else Written(entries[0]) + WriteTree(entries[1..])
  }

  lemma NextEntryWritten(data: Bytes, at: nat)
    requires at < |data| && NextEntry(data, at).Ok?
    ensures ValidEntry(NextEntry(data, at).value.0)
    ensures data[at..NextEntry(data, at).value.1] == Written(NextEntry(data, at).value.0)
  {
    Rejoined(data, at, Find(data, SPACE, at), Find(data, NUL, Find(data, SPACE, at) + 1));
  }

  lemma Rejoined(data: Bytes, at: nat, split: nat, end: nat)
    requires at <= split < end && end + 21 <= |data| && data[split] == SPACE && data[end] == NUL
    ensures data[at..end + 21] == data[at..split] + [SPACE] + data[split + 1..end] + [NUL] + data[end + 1..end + 21]
  {
  }

  lemma ModeHasNoSpace(mode: Bytes)
    requires IsMode(mode)
    ensures SPACE !in mode && 5 <= |mode| <= 6
  {
  }

  lemma WrittenParts(e: Entry)
    ensures var w, m, n := Written(e), |e.mode|, |e.name|;
            && |w| == m + n + 2 + |e.oid| && w[m] == SPACE && w[m + 1 + n] == NUL
            && w[..m] == e.mode && w[m + 1..m + 1 + n] == e.name && w[m + n + 2..] == e.oid
  {
  }

  lemma SubSlice(data: Bytes, at: nat, w: Bytes, i: nat, j: nat)
    requires at + |w| <= |data| && data[at..at + |w|] == w && i <= j <= |w|
    ensures data[at + i..at + j] == w[i..j]
  {
    forall k | i <= k < j ensures data[at + k] == w[k]
    {
      assert data[at..at + |w|][k] == w[k];
    }
  }

  lemma FindAfter(data: Bytes, b: byte, from: nat, part: Bytes)
    requires from + |part| < |data| && data[from..from + |part|] == part && b !in part && data[from + |part|] == b
    ensures Find(data, b, from) == from + |part|
  {
    forall i | from <= i < from + |part| ensures data[i] != b
    {
      assert part[i - from] == data[i];
    }
    FindAt(data, b, from, from + |part|);
  }

  lemma ElementAt(data: Bytes, at: nat, w: Bytes, k: nat)
    requires at + |w| <= |data| && data[at..at + |w|] == w && k < |w|
    ensures data[at + k] == w[k]
  {
    assert data[at..at + |w|][k] == w[k];
  }

  lemma EntryMarks(data: Bytes, at: nat, e: Entry)
    requires ValidEntry(e) && at + |Written(e)| <= |data| && data[at..at + |Written(e)|] == Written(e)
    ensures |Written(e)| == |e.mode| + |e.name| + 22
    ensures Find(data, SPACE, at) == at + |e.mode|
    ensures Find(data, NUL, at + |e.mode| + 1) == at + |e.mode| + 1 + |e.name|
  {
    var w, m, n := Written(e), |e.mode|, |e.name|;
    WrittenParts(e);
    ModeHasNoSpace(e.mode);
    SubSlice(data, at, w, 0, m);
    ElementAt(data, at, w, m);
    FindAfter(data, SPACE, at, e.mode);
    SubSlice(data, at, w, m + 1, m + 1 + n);
    ElementAt(data, at, w, m + 1 + n);
    FindAfter(data, NUL, at + m + 1, e.name);
  }

  lemma EntrySlices(data: Bytes, at: nat, e: Entry)
    requires ValidEntry(e) && at + |Written(e)| <= |data| && data[at..at + |Written(e)|] == Written(e)
    ensures |Written(e)| == |e.mode| + |e.name| + 22
    ensures data[at..at + |e.mode|] == e.mode
    ensures data[at + |e.mode| + 1..at + |e.mode| + 1 + |e.name|] == e.name
    ensures data[at + |e.mode| + |e.name| + 2..at + |Written(e)|] == e.oid
  {
    var w, m, n := Written(e), |e.mode|, |e.name|;
    WrittenParts(e);
    SubSlice(data, at, w, 0, m);
    SubSlice(data, at, w, m + 1, m + 1 + n);
    SubSlice(data, at, w, m + n + 2, |w|);
  }

  lemma EntryAt(data: Bytes, at: nat, e: Entry)
    requires ValidEntry(e) && at + |Written(e)| <= |data| && data[at..at + |Written(e)|] == Written(e)
    ensures at < |data| && NextEntry(data, at) == Ok((e, at + |Written(e)|))
  {
    EntryMarks(data, at, e);
    EntrySlices(data, at, e);
  }

  lemma WrittenEntryNext(before: Bytes, e: Entry, after: Bytes)
    requires ValidEntry(e)
    ensures |before| < |before + Written(e) + after|
    ensures NextEntry(before + Written(e) + after, |before|) == Ok((e, |before| + |Written(e)|))
  {
    EntryAt(before + Written(e) + after, |before|, e);
  }

  lemma ParseStep(data: Bytes, at: nat)
    requires at < |data|
    ensures NextEntry(data, at).Fail? ==> ParseTree(data, at) == Fail(NextEntry(data, at).code)
    ensures NextEntry(data, at).Ok? ==>
              ParseTree(data, at) == After([NextEntry(data, at).value.0], ParseTree(data, NextEntry(data, at).value.1))
  {
  }

  function After(done: seq<Entry>, rest: Outcome<seq<Entry>>): (r: Outcome<seq<Entry>>) {
    if rest.Ok? then Ok(done + rest.value) else rest
  }

  lemma WriteOneMore(e: Entry, rest: seq<Entry>)
    ensures WriteTree([e] + rest) == Written(e) + WriteTree(rest)
  {
    assert ([e] + rest)[1..] == rest;
  }

  /** The parser accepts a tree exactly when it is a sequence of well-formed entries, and then
      returns those entries: nothing is skipped and nothing is left over. */
  lemma {:induction false} ParsedIsWritten(data: Bytes, at: nat)
    requires at <= |data| && ParseTree(data, at).Ok?
    ensures data[at..] == WriteTree(ParseTree(data, at).value)
    ensures forall e :: e in ParseTree(data, at).value ==> ValidEntry(e)
    decreases |data| - at
  {
    if at < |data| {
      ParseStep(data, at);
      var next := NextEntry(data, at).value;
      NextEntryWritten(data, at);
      ParsedIsWritten(data, next.1);
      WriteOneMore(next.0, ParseTree(data, next.1).value);
      assert data[at..] == data[at..next.1] + data[next.1..];
    }
  }

  lemma {:induction false} WrittenIsParsed(before: Bytes, entries: seq<Entry>)
    requires forall e :: e in entries ==> ValidEntry(e)
    ensures ParseTree(before + WriteTree(entries), |before|) == Ok(entries)
    decreases |entries|
  {
    hide NextEntry, Written, ValidEntry;
    var data := before + WriteTree(entries);
    if entries != [] {
      var e, rest := entries[0], entries[1..];
      assert e in entries && forall x :: x in rest ==> x in entries;
      assert data == before + Written(e) + WriteTree(rest);
      WrittenEntryNext(before, e, WriteTree(rest));
      WrittenIsParsed(before + Written(e), rest);
      assert [e] + rest == entries;
    }
  }

  lemma TreesRoundTrip(data: Bytes, entries: seq<Entry>)
    ensures ParseTree(data, 0) == Ok(entries) <==>
            data == WriteTree(entries) && forall e :: e in entries ==> ValidEntry(e)
  {
    if ParseTree(data, 0).Ok? { ParsedIsWritten(data, 0); }
    if forall e :: e in entries ==> ValidEntry(e) {
      WrittenIsParsed([], entries);
      assert [] + WriteTree(entries) == WriteTree(entries);
    }
  }

  function HexDigit(n: int): (c: char)
    requires 0 <= n < 16
  {
    if n < 10 then '0' + n as char else 'a' + (n - 10) as char
  }

  function Hex(data: Bytes): (s: string)
    ensures |s| == 2 * |data|
    ensures forall c :: c in s ==> '0' <= c <= '9' || 'a' <= c <= 'f'
  {
    if data == [] then "" else [HexDigit(data[0] as int / 16), HexDigit(data[0] as int % 16)] + Hex(data[1..])
  }

  function Children(entries: seq<Entry>, depth: nat): (items: seq<Item>)
    ensures |items| == |entries|
    ensures forall i :: 0 <= i < |entries| ==> items[i] == Item(Hex(entries[i].oid), KindOf(entries[i].mode), depth)
  {
    seq(|entries|, i requires 0 <= i < |entries| => Item(Hex(entries[i].oid), KindOf(entries[i].mode), depth))
  }

  lemma ChildrenOneMore(done: seq<Entry>, e: Entry, depth: nat)
    ensures Children(done + [e], depth) == Children(done, depth) + [Item(Hex(e.oid), KindOf(e.mode), depth)]
  {
  }

  lemma AfterOneMore(done: seq<Entry>, e: Entry, rest: Outcome<seq<Entry>>)
    ensures After(done, After([e], rest)) == After(done + [e], rest)
    ensures After([], rest) == rest && After(done, Ok([])) == Ok(done)
  {
    if rest.Ok? {
      assert done + ([e] + rest.value) == done + [e] + rest.value;
      assert [] + rest.value == rest.value;
    }
    assert done + [] == done;
  }

  /** The entries of one tree, pushed as they are read. */
  method PushEntries(data: Bytes, depth: nat) returns (r: Outcome<seq<Item>>)
    ensures r == match ParseTree(data, 0) case Fail(code) => Fail(code) case Ok(entries) => Ok(Children(entries, depth))
  {
    var stack := [];
    var at: nat := 0;
    ghost var done: seq<Entry> := [];
    AfterOneMore([], Entry([], [], []), ParseTree(data, 0));
    while at < |data|
      invariant at <= |data|
      invariant ParseTree(data, 0) == After(done, ParseTree(data, at))
      invariant stack == Children(done, depth)
    {
      ParseStep(data, at);
      var next := NextEntry(data, at);
      if next.Fail? { return Fail(next.code); }
      var e := next.value.0;
      stack := stack + [Item(Hex(e.oid), KindOf(e.mode), depth)];
      at := next.value.1;
      ChildrenOneMore(done, e, depth);
      AfterOneMore(done, e, ParseTree(data, at));
      done := done + [e];
    }
    AfterOneMore(done, Entry([], [], []), Ok([]));
    return Ok(stack);
  }
}
