/** Bodies through the preview relay: split into pieces, coded in base64, framed, and put together
    again at the other end (infra/previews/relay.ts, apps/api/src/preview-gateway.ts). */
module RelayBodies {
  import opened Octets
  import opened Framing
  import Base64

  const DATA_BYTES := 49152
  const MESSAGE_BYTES := 65536
  const REQUEST_BYTES := 8388608

  /** The loop over one chunk of a body in steps of `DATA_BYTES`. */
  function Pieces(chunk: Bytes): (pieces: seq<Bytes>) {
    if chunk == [] then []
    else if |chunk| <= DATA_BYTES then [chunk]
    else [chunk[..DATA_BYTES]] + Pieces(chunk[DATA_BYTES..])
  }

  function AllPieces(parts: seq<Bytes>): (pieces: seq<Bytes>) {
    if parts == [] then [] else AllPieces(parts[..|parts| - 1]) + Pieces(parts[|parts| - 1])
  }

  predicate Small(pieces: seq<Bytes>) {
    forall p :: p in pieces ==> 1 <= |p| <= DATA_BYTES
  }

  lemma JoinedSplits(a: seq<Bytes>, b: seq<Bytes>)
    ensures Joined(a + b) == Joined(a) + Joined(b)
    decreases |b|
  {
    if b == [] {
      assert a + b == a && Joined(a) + [] == Joined(a);
    } else {
      JoinedSplits(a, b[..|b| - 1]);
      assert (a + b)[..|a + b| - 1] == a + b[..|b| - 1];
      assert Joined(a) + Joined(b[..|b| - 1]) + b[|b| - 1] == Joined(a) + (Joined(b[..|b| - 1]) + b[|b| - 1]);
    }
  }

  lemma JoinedOne(piece: Bytes)
    ensures Joined([piece]) == piece
  {
    assert [piece][..0] == [] && [] + piece == piece;
  }

  lemma {:induction false} PiecesJoin(chunk: Bytes)
    ensures Joined(Pieces(chunk)) == chunk && Small(Pieces(chunk))
    decreases |chunk|
  {
    if chunk != [] && |chunk| <= DATA_BYTES {
      JoinedOne(chunk);
    } else if chunk != [] {
      PiecesJoin(chunk[DATA_BYTES..]);
      JoinedOne(chunk[..DATA_BYTES]);
      JoinedSplits([chunk[..DATA_BYTES]], Pieces(chunk[DATA_BYTES..]));
      assert chunk == chunk[..DATA_BYTES] + chunk[DATA_BYTES..];
    }
  }

  lemma {:induction false} AllPiecesJoin(parts: seq<Bytes>)
    ensures Joined(AllPieces(parts)) == Joined(parts) && Small(AllPieces(parts))
    decreases |parts|
  {
    if parts != [] {
      AllPiecesJoin(parts[..|parts| - 1]);
      PiecesJoin(parts[|parts| - 1]);
      JoinedSplits(AllPieces(parts[..|parts| - 1]), Pieces(parts[|parts| - 1]));
    }
  }

  // ----- one frame ------------------------------------------------------------------------------

  predicate IsAscii(s: string) {
    forall i :: 0 <= i < |s| ==> s[i] < 128 as char && s[i] != '\n'
  }

  function Ascii(s: string): (data: Bytes)
    requires IsAscii(s)
    ensures |data| == |s| && NEWLINE !in data
  {
    seq(|s|, i requires 0 <= i < |s| => s[i] as byte)
  }

  predicate IsId(id: string) {
    |id| == 36 && forall i :: 0 <= i < |id| ==> '0' <= id[i] <= '9' || 'a' <= id[i] <= 'f' || id[i] == '-'
  }

  /** Frame types that carry bytes. */
  datatype Kind = Body | Data | Message(binary: bool)

  function Name(kind: Kind): (s: string)
    ensures |s| <= 7 && IsAscii(s)
  {
    match kind
    case Body => "body"
    case Data => "data"
    case Message(_) => "message"
  }

  function Before(kind: Kind, id: string): (data: Bytes)
    requires IsId(id)
    ensures |data| <= 80 && NEWLINE !in data
  {
    Ascii("{\"type\":\"") + Ascii(Name(kind)) + Ascii("\",\"id\":\"") + Ascii(id) + Ascii("\",\"data\":\"")
  }

  function Behind(kind: Kind): (data: Bytes)
    ensures |data| <= 20 && NEWLINE !in data
  {
    if !kind.Message? then Ascii("\"}")
    else if kind.binary then Ascii("\",\"binary\":true}")
    else Ascii("\",\"binary\":false}")
  }

  function Line(kind: Kind, id: string, piece: Bytes): (line: Bytes)
    requires IsId(id)
  {
    Before(kind, id) + Base64.Encode(piece) + Behind(kind)
  }

  lemma LettersAreNoNewline(text: Bytes)
    requires Base64.Wellformed(text)
    ensures NEWLINE !in text
    decreases |text|
  {
    if |text| > 4 {
      LettersAreNoNewline(text[4..]);
      assert text == text[..4] + text[4..];
      forall i | 0 <= i < |text| ensures text[i] != NEWLINE {
        if i >= 4 { assert text[i] == text[4..][i - 4]; }
      }
    } else if text != [] {
      assert text == [text[0], text[1], text[2], text[3]];
    }
  }

  /** Every piece of a body fits one frame, and so does the largest websocket message. */
  lemma LineFits(kind: Kind, id: string, piece: Bytes)
    requires IsId(id) && |piece| <= if kind.Message? then MESSAGE_BYTES else DATA_BYTES
    ensures Sendable(Line(kind, id, piece))
  {
    hide Before, Behind;
    Base64.EncodedSize(piece);
    Base64.EncodedIsCanonical(piece);
    LettersAreNoNewline(Base64.Encode(piece));
  }

  /** What the reader finds between the fixed parts of a line. */
  function Text(kind: Kind, id: string, line: Bytes): (r: Base64.Option<Bytes>)
    requires IsId(id)
  {
    var a, z := |Before(kind, id)|, |Behind(kind)|;
    if |line| >= a + z && line[..a] == Before(kind, id) && line[|line| - z..] == Behind(kind)
    then Base64.Some(line[a..|line| - z]) else Base64.None
  }

  lemma TextOfLine(kind: Kind, id: string, piece: Bytes)
    requires IsId(id)
    ensures Text(kind, id, Line(kind, id, piece)) == Base64.Some(Base64.Encode(piece))
  {
    hide Before, Behind;
    var line, a, z := Line(kind, id, piece), |Before(kind, id)|, |Behind(kind)|;
    assert line[..a] == Before(kind, id);
    assert line[|line| - z..] == Behind(kind);
    assert line[a..|line| - z] == Base64.Encode(piece);
  }

  /** A body at its receiving end: what it has got so far, or a connection given up. */
  datatype Received = Open(body: Bytes) | Removed

  /** The two receiving ends: a request body at the relay, a response body at the gateway. */
  datatype End = Relay | Gateway

  function KindOf(end: End): (kind: Kind) {
    if end.Relay? then Body else Data
  }

  /** The bytes of a line at either end: a piece of a request travels as `body`, one of a response as `data`. */
  lemma LinesByEnd(id: string, piece: Bytes)
    requires IsId(id)
    ensures Line(KindOf(Relay), id, piece) ==
            Ascii("{\"type\":\"") + Ascii("body") + Ascii("\",\"id\":\"") + Ascii(id) + Ascii("\",\"data\":\"")
            + Base64.Encode(piece) + Ascii("\"}")
    ensures Line(KindOf(Gateway), id, piece) ==
            Ascii("{\"type\":\"") + Ascii("data") + Ascii("\",\"id\":\"") + Ascii(id) + Ascii("\",\"data\":\"")
            + Base64.Encode(piece) + Ascii("\"}")
  {
  }

  /** `queued` says how much of what was received is still waiting to be written on. */
  predicate Admits(end: End, queued: Bytes -> nat, body: Bytes, size: nat) {
    (end.Relay? ==> |body| + size <= REQUEST_BYTES) && queued(body) + size <= BACKLOG_BYTES
  }

  /** The handler of one body. When a piece does not decode or is not admitted, the relay removes this
      connection and reads on, and shuts down at the next line for it; the gateway drops its socket. */
  function Receive(end: End, id: string, queued: Bytes -> nat): (handle: Handler<Received>)
    requires IsId(id)
  {
    (r: Received, line: Bytes) =>
      var text := Text(KindOf(end), id, line);
      if text.None? then Malformed
      else if r.Removed? then (if end.Relay? then Threw(Removed) else Went(Removed))
      else
        var data := Base64.Decoded(text.value, DATA_BYTES);
        if data.Some? && Admits(end, queued, r.body, |data.value|) then Went(Open(r.body + data.value))
        else if end.Relay? then Went(Removed) else Threw(Removed)
  }

  /** Every piece is admitted when its turn comes. */
  predicate Flows(end: End, queued: Bytes -> nat, body: Bytes, pieces: seq<Bytes>)
    decreases |pieces|
  {
    pieces == [] || (Admits(end, queued, body, |pieces[0]|) && Flows(end, queued, body + pieces[0], pieces[1..]))
  }

  function Lines(kind: Kind, id: string, pieces: seq<Bytes>): (lines: seq<Bytes>)
    requires IsId(id)
    ensures |lines| == |pieces| && forall i :: 0 <= i < |pieces| ==> lines[i] == Line(kind, id, pieces[i])
  {
    seq(|pieces|, i requires 0 <= i < |pieces| => Line(kind, id, pieces[i]))
  }

  lemma LinesAreSendable(kind: Kind, id: string, pieces: seq<Bytes>)
    requires IsId(id) && Small(pieces)
    ensures forall line :: line in Lines(kind, id, pieces) ==> Sendable(line)
  {
    hide Line;
    forall line | line in Lines(kind, id, pieces)
      ensures Sendable(line)
    {
      var i :| 0 <= i < |pieces| && Lines(kind, id, pieces)[i] == line;
      assert pieces[i] in pieces;
      LineFits(kind, id, pieces[i]);
    }
  }

  lemma ReceivesOne(end: End, id: string, queued: Bytes -> nat, r: Received, piece: Bytes)
    requires IsId(id) && 1 <= |piece| <= DATA_BYTES
    ensures Receive(end, id, queued)(r, Line(KindOf(end), id, piece)) ==
            if r.Removed? then (if end.Relay? then Threw(Removed) else Went(Removed))
            else if Admits(end, queued, r.body, |piece|) then Went(Open(r.body + piece))
            else if end.Relay? then Went(Removed) else Threw(Removed)
  {
    hide Line, Text, Base64.Decoded, Admits;
    TextOfLine(KindOf(end), id, piece);
    Base64.DecoderInverts(piece, DATA_BYTES);
  }

  lemma LinesMore(kind: Kind, id: string, pieces: seq<Bytes>)
    requires IsId(id) && pieces != []
    ensures Lines(kind, id, pieces) == [Line(kind, id, pieces[0])] + Lines(kind, id, pieces[1..])
  {
    hide Line;
  }

  lemma JoinedMore(pieces: seq<Bytes>)
    requires pieces != []
    ensures Joined(pieces) == pieces[0] + Joined(pieces[1..])
  {
    JoinedOne(pieces[0]);
    JoinedSplits([pieces[0]], pieces[1..]);
    assert pieces == [pieces[0]] + pieces[1..];
  }

  /** The body received so far and the pieces that come, or a connection given up. */
  function Outcome(end: End, queued: Bytes -> nat, r: Received, pieces: seq<Bytes>): (r': Received) {
    if r.Open? && Flows(end, queued, r.body, pieces) then Open(r.body + Joined(pieces)) else Removed
  }

  lemma OneLine<A>(handle: Handler<A>, app: A, line: Bytes, rest: Bytes)
    requires NEWLINE !in line && |line| <= FRAME_BYTES && !handle(app, line).Malformed?
    ensures Drain(handle, app, Written(line) + rest) ==
            if handle(app, line).Threw? then Drained(handle(app, line).app, rest, Thrown, [line])
            else After(line, Drain(handle, handle(app, line).app, rest))
  {
    HeadWritten(line, rest);
  }

  lemma ReceivesFirst(end: End, id: string, queued: Bytes -> nat, r: Received, pieces: seq<Bytes>)
    requires IsId(id) && Small(pieces) && pieces != []
    ensures Receive(end, id, queued)(r, Line(KindOf(end), id, pieces[0])) ==
            if r.Removed? then (if end.Relay? then Threw(Removed) else Went(Removed))
            else if Admits(end, queued, r.body, |pieces[0]|) then Went(Open(r.body + pieces[0]))
            else if end.Relay? then Went(Removed) else Threw(Removed)
    ensures var handle, kind := Receive(end, id, queued), KindOf(end);
            var line := Line(kind, id, pieces[0]);
            Drain(handle, r, WriteFrames(Lines(kind, id, pieces))) ==
            if handle(r, line).Threw?
            then Drained(handle(r, line).app, WriteFrames(Lines(kind, id, pieces[1..])), Thrown, [line])
            else After(line, Drain(handle, handle(r, line).app, WriteFrames(Lines(kind, id, pieces[1..]))))
  {
    var kind, piece := KindOf(end), pieces[0];
    assert piece in pieces && 1 <= |piece| <= DATA_BYTES;
    hide *;
    ReceivesOne(end, id, queued, r, piece);
    LinesMore(kind, id, pieces);
    LineFits(kind, id, piece);
    WrittenFirst(Line(kind, id, piece), Lines(kind, id, pieces[1..]));
    LineIsShort(kind, id, piece);
    OneLine(Receive(end, id, queued), r, Line(kind, id, piece), WriteFrames(Lines(kind, id, pieces[1..])));
  }

  lemma LineIsShort(kind: Kind, id: string, piece: Bytes)
    requires IsId(id) && Sendable(Line(kind, id, piece))
    ensures NEWLINE !in Line(kind, id, piece) && |Line(kind, id, piece)| <= FRAME_BYTES
  {
  }

  lemma OutcomeFirst(end: End, queued: Bytes -> nat, r: Received, pieces: seq<Bytes>)
    requires pieces != []
    ensures Outcome(end, queued, r, pieces) ==
            if r.Open? && Admits(end, queued, r.body, |pieces[0]|)
            then Outcome(end, queued, Open(r.body + pieces[0]), pieces[1..]) else Removed
  {
    hide Admits, Joined;
    JoinedMore(pieces);
    if r.Open? { assert r.body + pieces[0] + Joined(pieces[1..]) == r.body + (pieces[0] + Joined(pieces[1..])); }
  }

  lemma OutcomeOfNone(end: End, queued: Bytes -> nat, r: Received)
    ensures Outcome(end, queued, r, []) == r
  {
    if r.Open? { assert r.body + Joined([]) == r.body; }
  }

  lemma RemovedForGood(end: End, queued: Bytes -> nat, pieces: seq<Bytes>)
    ensures Outcome(end, queued, Removed, pieces) == Removed
  {
  }

  lemma {:induction false} ReceivesAll(end: End, id: string, queued: Bytes -> nat, r: Received, pieces: seq<Bytes>)
    requires IsId(id) && Small(pieces)
    ensures var d := Drain(Receive(end, id, queued), r, WriteFrames(Lines(KindOf(end), id, pieces)));
            && d.app == Outcome(end, queued, r, pieces)
            && (d.app.Open? ==> d.stop.Waiting? && d.rest == [])
    decreases |pieces|
  {
    hide Line, Receive, Drain, Admits, Outcome, WriteFrames, KindOf;
    if pieces == [] {
      assert Lines(KindOf(end), id, pieces) == [];
      NothingToRead(Receive(end, id, queued), r);
      OutcomeOfNone(end, queued, r);
    } else {
      hide Lines;
      assert forall p :: p in pieces[1..] ==> p in pieces;
      ReceivesFirst(end, id, queued, r, pieces);
      OutcomeFirst(end, queued, r, pieces);
      var reply := Receive(end, id, queued)(r, Line(KindOf(end), id, pieces[0]));
      RemovedForGood(end, queued, pieces[1..]);
      if reply.Went? { ReceivesAll(end, id, queued, reply.app, pieces[1..]); }
    }
  }

  lemma NothingToRead<A>(handle: Handler<A>, app: A)
    ensures Drain(handle, app, WriteFrames([])) == Drained(app, [], Waiting, [])
  {
  }

  lemma WrittenFirst(line: Bytes, lines: seq<Bytes>)
    ensures WriteFrames([line] + lines) == Written(line) + WriteFrames(lines)
  {
    assert ([line] + lines)[1..] == lines;
  }

  /** A body handed to the sender in any parts, and its frames to the relay or the gateway in any
      chunks, arrives whole (same bytes, in order, none lost or added, the connection still open)
      exactly when every piece is admitted; otherwise its connection is given up. */
  lemma BodyArrivesExactly(end: End, id: string, queued: Bytes -> nat, parts: seq<Bytes>, chunks: seq<Bytes>)
    requires IsId(id) && Joined(chunks) == WriteFrames(Lines(KindOf(end), id, AllPieces(parts)))
    ensures var handle := Receive(end, id, queued);
            var s := if end.Relay? then RelayFeedAll(handle, Open([]), chunks)
                     else BrokerFeedAll(handle, (r: Received) => r.Removed?, Open([]), chunks);
            if Flows(end, queued, [], AllPieces(parts)) then s.app == Open(Joined(parts)) && !s.closed && s.buffer == []
            else s.app == Removed
  {
    hide Line, Flows;
    var pieces, handle := AllPieces(parts), Receive(end, id, queued);
    AllPiecesJoin(parts);
    ReceivesAll(end, id, queued, Open([]), pieces);
    assert [] + Joined(pieces) == Joined(pieces);
    if end.Relay? {
      RelayIgnoresChunks(handle, Open([]), chunks);
    } else {
      GatewayIgnores(id, queued);
      BrokerIgnoresChunks(handle, (r: Received) => r.Removed?, Open([]), chunks);
    }
  }

  lemma GatewayIgnores(id: string, queued: Bytes -> nat)
    requires IsId(id)
    ensures Ignores(Receive(Gateway, id, queued), (r: Received) => r.Removed?)
  {
    hide Text;
  }

  /** With a peer that keeps up, nothing but the limit on a request matters. */
  lemma {:induction false} KeepingUpFlows(end: End, queued: Bytes -> nat, body: Bytes, pieces: seq<Bytes>)
    requires Small(pieces) && (forall b :: queued(b) + DATA_BYTES <= BACKLOG_BYTES)
    ensures Flows(end, queued, body, pieces) <==>
              end.Gateway? || pieces == [] || |body| + |Joined(pieces)| <= REQUEST_BYTES
    decreases |pieces|
  {
    if pieces != [] {
      JoinedMore(pieces);
      assert pieces[0] in pieces && forall p :: p in pieces[1..] ==> p in pieces;
      KeepingUpFlows(end, queued, body + pieces[0], pieces[1..]);
      if pieces[1..] == [] { assert Joined(pieces[1..]) == []; }
      hide Joined;
    }
  }

  // ----- the senders --------------------------------------------------------------------------------

  /** The sending loop over one chunk: a frame for each `DATA_BYTES`. */
  method SplitChunk(kind: Kind, id: string, chunk: Bytes) returns (lines: seq<Bytes>)
    requires IsId(id)
    ensures lines == Lines(kind, id, Pieces(chunk))
    ensures forall line :: line in lines ==> Sendable(line)
  {
    hide Line;
    lines := [];
    var at := 0;
    ghost var done: seq<Bytes> := [];
    assert chunk[0..] == chunk;
    while at < |chunk|
      invariant 0 <= at
      invariant at <= |chunk| || done == Pieces(chunk)
      invariant at <= |chunk| ==> done + Pieces(chunk[at..]) == Pieces(chunk)
      invariant lines == Lines(kind, id, done)
    {
      var end := if at + DATA_BYTES < |chunk| then at + DATA_BYTES else |chunk|;
      var piece := chunk[at..end];
      lines := lines + [Line(kind, id, piece)];
      assert chunk[at..][..end - at] == piece;
      if at + DATA_BYTES < |chunk| {
        assert chunk[at..][DATA_BYTES..] == chunk[at + DATA_BYTES..];
        assert done + ([piece] + Pieces(chunk[at + DATA_BYTES..])) == done + [piece] + Pieces(chunk[at + DATA_BYTES..]);
      } else {
        assert chunk[at..] == piece;
        assert at + DATA_BYTES == |chunk| ==> chunk[at + DATA_BYTES..] == [] && done + [piece] + [] == done + [piece];
      }
      done := done + [piece];
      at := at + DATA_BYTES;
    }
    assert at == |chunk| ==> chunk[at..] == [] && done + [] == done;
    PiecesJoin(chunk);
    LinesAreSendable(kind, id, Pieces(chunk));
  }
}
