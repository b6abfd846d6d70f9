/** Newline framing of the preview relay: the three readers (infra/previews/launcher.ts,
    infra/previews/relay.ts, apps/api/src/preview-gateway.ts) and what they owe to the chunks in
    which their bytes arrive. */
module Framing {
  import opened Octets

  const FRAME_BYTES := 98304
  const BACKLOG_BYTES := 262144
  const NEWLINE: byte := 10

  /** What handing over one line comes to: it does not parse, it is taken, or taking it throws. */
  datatype Reply<A> = Malformed | Went(app: A) | Threw(app: A)

  type Handler<!A> = (A, Bytes) -> Reply<A>

  datatype Stop = Waiting | Jammed | Thrown

  /** The outcome of one pass of the loop: what the lines made of the application, the bytes left,
      why it stopped, and the lines handed over. */
  datatype Drained<A> = Drained(app: A, rest: Bytes, stop: Stop, log: seq<Bytes>)

  /** The head of a buffer: no line yet, none that may still come, or a line and what follows. */
  datatype Head = Partial | TooLong | Line(line: Bytes, tail: Bytes)

  function HeadOf(buffer: Bytes): (h: Head)
    ensures h.Line? ==> buffer == Written(h.line) + h.tail && NEWLINE !in h.line && |h.line| <= FRAME_BYTES
    ensures h.Line? ==> |h.tail| < |buffer|
    ensures h.Partial? ==> NEWLINE !in buffer && |buffer| <= FRAME_BYTES
  {
    var at := Find(buffer, NEWLINE, 0);
    if at < 0 then (if |buffer| > FRAME_BYTES then TooLong else Partial)
    else if at > FRAME_BYTES then TooLong
    else Line(buffer[..at], buffer[at + 1..])
  }

  function Drain<A>(handle: Handler<A>, app: A, buffer: Bytes): (r: Drained<A>)
    decreases |buffer|
  {
    match HeadOf(buffer)
    case Partial => Drained(app, buffer, Waiting, [])
    case TooLong => Drained(app, buffer, Jammed, [])
    case Line(line, tail) =>
      match handle(app, line)
      case Malformed => Drained(app, buffer, Jammed, [])
      case Threw(app') => Drained(app', tail, Thrown, [line])
      case Went(app') => After(line, Drain(handle, app', tail))
  }

  function After<A>(line: Bytes, r: Drained<A>): (r': Drained<A>) {
    r.(log := [line] + r.log)
  }

  function Written(line: Bytes): (data: Bytes) { line + [NEWLINE] }

  function WriteFrames(lines: seq<Bytes>): (data: Bytes) {
    if lines == [] then [] else Written(lines[0]) + WriteFrames(lines[1..])
  }

  // ----- one pass -------------------------------------------------------------------------------

  lemma HeadGrows(x: Bytes, y: Bytes)
    ensures HeadOf(x).Line? ==> HeadOf(x + y) == Line(HeadOf(x).line, HeadOf(x).tail + y)
    ensures HeadOf(x).TooLong? ==> HeadOf(x + y).TooLong?
  {
    var at := Find(x, NEWLINE, 0);
    assert forall i :: 0 <= i < |x| ==> (x + y)[i] == x[i];
    if at >= 0 {
      FindAt(x + y, NEWLINE, 0, at);
      assert (x + y)[..at] == x[..at] && (x + y)[at + 1..] == x[at + 1..] + y;
    }
  }

  lemma HeadWritten(line: Bytes, tail: Bytes)
    requires NEWLINE !in line && |line| <= FRAME_BYTES
    ensures HeadOf(Written(line) + tail) == Line(line, tail)
  {
    var data := Written(line) + tail;
    FindAt(data, NEWLINE, 0, |line|);
    assert data[..|line|] == line && data[|line| + 1..] == tail;
  }

  /** How a pass over `x` and one over what it left, with `y` added, make a pass over both. */
  function Continued<A>(handle: Handler<A>, d: Drained<A>, y: Bytes): (r: Drained<A>) {
    if d.stop.Waiting? then
      var e := Drain(handle, d.app, d.rest + y);
      e.(log := d.log + e.log)
    else d.(rest := d.rest + y)
  }

  lemma ContinuedAfter<A>(handle: Handler<A>, line: Bytes, d: Drained<A>, y: Bytes)
    ensures Continued(handle, After(line, d), y) == After(line, Continued(handle, d, y))
  {
    hide Drain;
    var e := Drain(handle, d.app, d.rest + y);
    assert [line] + (d.log + e.log) == ([line] + d.log) + e.log;
  }

  lemma {:induction false} DrainSplits<A>(handle: Handler<A>, app: A, x: Bytes, y: Bytes)
    ensures Drain(handle, app, x + y) == Continued(handle, Drain(handle, app, x), y)
    decreases |x|
  {
    hide HeadOf;
    HeadGrows(x, y);
    var h := HeadOf(x);
    if h.Partial? {
      var whole := Drain(handle, app, x + y);
      assert [] + whole.log == whole.log;
    } else if h.Line? && handle(app, h.line).Went? {
      hide Continued, After;
      var app' := handle(app, h.line).app;
      DrainSplits(handle, app', h.tail, y);
      ContinuedAfter(handle, h.line, Drain(handle, app', h.tail), y);
    }
  }

  lemma WriteOneMore(line: Bytes, lines: seq<Bytes>, rest: Bytes)
    ensures WriteFrames([line] + lines) + rest == Written(line) + (WriteFrames(lines) + rest)
  {
    assert ([line] + lines)[1..] == lines;
  }

  /** No byte is lost, repeated or reordered: the lines handed over and the rest are the buffer. */
  lemma {:induction false} DrainConserves<A>(handle: Handler<A>, app: A, buffer: Bytes)
    ensures WriteFrames(Drain(handle, app, buffer).log) + Drain(handle, app, buffer).rest == buffer
    ensures forall line :: line in Drain(handle, app, buffer).log ==> NEWLINE !in line && |line| <= FRAME_BYTES
    decreases |buffer|
  {
    hide HeadOf, WriteFrames, Written;
    var h := HeadOf(buffer);
    NoFrames(buffer);
    if h.Line? && handle(app, h.line).Went? {
      var e := Drain(handle, handle(app, h.line).app, h.tail);
      DrainConserves(handle, handle(app, h.line).app, h.tail);
      WriteOneMore(h.line, e.log, e.rest);
    } else if h.Line? && handle(app, h.line).Threw? {
      WriteOneMore(h.line, [], h.tail);
      NoFrames(h.tail);
      assert [h.line] + [] == [h.line];
    }
  }

  lemma NoFrames(rest: Bytes)
    ensures WriteFrames([]) + rest == rest
  {
  }

  /** Lines that the handler takes one after another. */
  function Taken<A>(handle: Handler<A>, app: A, lines: seq<Bytes>): (r: Reply<A>) {
    if lines == [] then Went(app)
    else match handle(app, lines[0])
      case Went(app') => Taken(handle, app', lines[1..])
      case other => other
  }

  predicate Sendable(line: Bytes) {
    NEWLINE !in line && |line| + 1 <= FRAME_BYTES
  }

  lemma {:induction false} DrainReads<A>(handle: Handler<A>, app: A, lines: seq<Bytes>)
    requires (forall line :: line in lines ==> Sendable(line)) && Taken(handle, app, lines).Went?
    ensures Drain(handle, app, WriteFrames(lines)) == Drained(Taken(handle, app, lines).app, [], Waiting, lines)
    decreases |lines|
  {
    hide HeadOf;
    if lines != [] {
      var line := lines[0];
      assert Sendable(line);
      HeadWritten(line, WriteFrames(lines[1..]));
      DrainReads(handle, handle(app, line).app, lines[1..]);
      assert [line] + lines[1..] == lines;
    } else {
      EmptyIsPartial();
    }
  }

  lemma EmptyIsPartial()
    ensures HeadOf([]).Partial?
  {
  }

  // ----- three readers ------------------------------------------------------------------------------

  /** `closed` is what the reader tells the world: shut down, aborted, destroyed. */
  datatype Reader<A> = Reader(app: A, buffer: Bytes, closed: bool, log: seq<Bytes>)

  function Opened<A>(app: A): (r: Reader<A>) { Reader(app, [], false, []) }

  function Pass<A>(handle: Handler<A>, s: Reader<A>, chunk: Bytes): (d: Drained<A>) {
    Drain(handle, s.app, s.buffer + chunk)
  }

  /** The relay stops listening once it is closed. */
  function RelayFeed<A>(handle: Handler<A>, s: Reader<A>, chunk: Bytes): (s': Reader<A>) {
    if s.closed then s
    else
      var d := Pass(handle, s, chunk);
      Reader(d.app, d.rest, !d.stop.Waiting?, s.log + d.log)
  }

  /** The supervisor's end aborts, and goes on listening. */
  function PreviewFeed<A>(handle: Handler<A>, s: Reader<A>, chunk: Bytes): (s': Reader<A>) {
    var d := Pass(handle, s, chunk);
    Reader(d.app, d.rest, s.closed || !d.stop.Waiting?, s.log + d.log)
  }

  /** The gateway's socket is deaf once destroyed, be it by the reader or by its own handler. */
  function BrokerFeed<A>(handle: Handler<A>, gone: A -> bool, s: Reader<A>, chunk: Bytes): (s': Reader<A>) {
    if s.closed then s
    else
      var d := Pass(handle, s, chunk);
      Reader(d.app, d.rest, !d.stop.Waiting? || gone(d.app), s.log + d.log)
  }

  function RelayFeedAll<A>(handle: Handler<A>, app: A, chunks: seq<Bytes>): (s: Reader<A>) {
    if chunks == [] then Opened(app)
    else RelayFeed(handle, RelayFeedAll(handle, app, chunks[..|chunks| - 1]), chunks[|chunks| - 1])
  }

  function PreviewFeedAll<A>(handle: Handler<A>, app: A, chunks: seq<Bytes>): (s: Reader<A>) {
    if chunks == [] then Opened(app)
    else PreviewFeed(handle, PreviewFeedAll(handle, app, chunks[..|chunks| - 1]), chunks[|chunks| - 1])
  }

  function BrokerFeedAll<A>(handle: Handler<A>, gone: A -> bool, app: A, chunks: seq<Bytes>): (s: Reader<A>) {
    if chunks == [] then Opened(app)
    else BrokerFeed(handle, gone, BrokerFeedAll(handle, gone, app, chunks[..|chunks| - 1]), chunks[|chunks| - 1])
  }

  // ----- the relay -----------------------------------------------------------------------------------

  /** The relay delivers the same lines, to the same effect, and closes or not, whatever the chunks. */
  lemma {:induction false} RelayIgnoresChunks<A>(handle: Handler<A>, app: A, chunks: seq<Bytes>)
    ensures var s, d := RelayFeedAll(handle, app, chunks), Drain(handle, app, Joined(chunks));
            && s.app == d.app && s.log == d.log && s.closed == !d.stop.Waiting?
            && (!s.closed ==> s.buffer == d.rest)
    decreases |chunks|
  {
    if chunks != [] {
      var before, chunk := chunks[..|chunks| - 1], chunks[|chunks| - 1];
      RelayIgnoresChunks(handle, app, before);
      DrainSplits(handle, app, Joined(before), chunk);
    }
  }

  // ----- the gateway ------------------------------------------------------------------------------------

  /** Once it has closed its connection the handler ignores what is still handed to it. */
  ghost predicate Ignores<A(!new)>(handle: Handler<A>, gone: A -> bool) {
    forall app, line {:trigger handle(app, line)} ::
      gone(app) ==> handle(app, line).Malformed? || handle(app, line) == Went(app)
  }

  lemma {:induction false} GoneStays<A(!new)>(handle: Handler<A>, gone: A -> bool, app: A, buffer: Bytes)
    requires Ignores(handle, gone) && gone(app)
    ensures Drain(handle, app, buffer).app == app
    decreases |buffer|
  {
    hide HeadOf;
    var h := HeadOf(buffer);
    if h.Line? && handle(app, h.line).Went? { GoneStays(handle, gone, app, h.tail); }
  }

  /** Under that condition the effect at the gateway does not depend on the chunks either. */
  lemma {:induction false} BrokerIgnoresChunks<A(!new)>(handle: Handler<A>, gone: A -> bool, app: A, chunks: seq<Bytes>)
    requires Ignores(handle, gone) && !gone(app)
    ensures var s, d := BrokerFeedAll(handle, gone, app, chunks), Drain(handle, app, Joined(chunks));
            && s.app == d.app && s.closed == (!d.stop.Waiting? || gone(d.app))
            && (!gone(d.app) ==> s.log == d.log) && (!s.closed ==> s.buffer == d.rest)
    decreases |chunks|
  {
    if chunks != [] {
      var before, chunk := chunks[..|chunks| - 1], chunks[|chunks| - 1];
      BrokerIgnoresChunks(handle, gone, app, before);
      DrainSplits(handle, app, Joined(before), chunk);
      var d := Drain(handle, app, Joined(before));
      if d.stop.Waiting? && gone(d.app) { GoneStays(handle, gone, d.app, d.rest + chunk); }
    }
  }

  // ----- the supervisor's end ------------------------------------------------------------------------------

  /** The next line is complete, short enough and parses. */
  predicate NextIsGood<A>(handle: Handler<A>, app: A, buffer: Bytes) {
    HeadOf(buffer).Line? && !handle(app, HeadOf(buffer).line).Malformed?
  }

  /** A listener throws on a line while a good one already stands behind it. */
  predicate Hazard<A>(handle: Handler<A>, app: A, stream: Bytes) {
    var d := Drain(handle, app, stream);
    d.stop.Thrown? && NextIsGood(handle, d.app, d.rest)
  }

  lemma HazardLasts<A>(handle: Handler<A>, app: A, x: Bytes, y: Bytes)
    requires Hazard(handle, app, x)
    ensures Hazard(handle, app, x + y)
  {
    var d := Drain(handle, app, x);
    DrainSplits(handle, app, x, y);
    HeadGrows(d.rest, y);
  }

  lemma {:induction false} StaysJammed<A>(handle: Handler<A>, app: A, buffer: Bytes)
    requires Drain(handle, app, buffer).stop.Jammed?
    ensures var d := Drain(handle, app, buffer); Drain(handle, d.app, d.rest) == Drained(d.app, d.rest, Jammed, [])
    decreases |buffer|
  {
    hide HeadOf;
    var h := HeadOf(buffer);
    if h.Line? && handle(app, h.line).Went? { StaysJammed(handle, handle(app, h.line).app, h.tail); }
  }

  lemma {:induction false} PreviewFollows<A>(handle: Handler<A>, app: A, chunks: seq<Bytes>)
    requires !Hazard(handle, app, Joined(chunks))
    ensures var s, d := PreviewFeedAll(handle, app, chunks), Drain(handle, app, Joined(chunks));
            s.app == d.app && s.log == d.log && s.closed == !d.stop.Waiting? && s.buffer == d.rest
    decreases |chunks|
  {
    if chunks != [] {
      var before, chunk := chunks[..|chunks| - 1], chunks[|chunks| - 1];
      if Hazard(handle, app, Joined(before)) { HazardLasts(handle, app, Joined(before), chunk); }
      PreviewFollows(handle, app, before);
      DrainSplits(handle, app, Joined(before), chunk);
      var d := Drain(handle, app, Joined(before));
      if d.stop.Jammed? {
        StaysJammed(handle, app, Joined(before));
        DrainSplits(handle, d.app, d.rest, chunk);
      }
    }
  }

  /** A pass that ended with a throw had taken in only the lines that it handed over. */
  lemma {:induction false} ThrownPrefix<A>(handle: Handler<A>, app: A, stream: Bytes)
    requires Drain(handle, app, stream).stop.Thrown?
    ensures var d := Drain(handle, app, stream); Drain(handle, app, WriteFrames(d.log)) == d.(rest := [])
    decreases |stream|
  {
    hide HeadOf;
    var h, d := HeadOf(stream), Drain(handle, app, stream);
    if handle(app, h.line).Went? {
      var e := Drain(handle, handle(app, h.line).app, h.tail);
      ThrownPrefix(handle, handle(app, h.line).app, h.tail);
      assert d.log[1..] == e.log;
      HeadWritten(h.line, WriteFrames(e.log));
    } else {
      assert d.log[1..] == [];
      HeadWritten(h.line, []);
    }
  }

  /** The supervisor's end delivers the same whatever the chunks exactly when no listener throws on
      a line that has a good one behind it: aborting does not stop it from listening, so the lines
      that were left in its buffer are delivered after all if another chunk arrives. */
  lemma PreviewIgnoresChunksExactly<A>(handle: Handler<A>, app: A, stream: Bytes)
    ensures (forall chunks :: Joined(chunks) == stream ==>
              PreviewFeedAll(handle, app, chunks).log == Drain(handle, app, stream).log) <==>
                !Hazard(handle, app, stream)
  {
    if !Hazard(handle, app, stream) {
      forall chunks | Joined(chunks) == stream
        ensures PreviewFeedAll(handle, app, chunks).log == Drain(handle, app, stream).log
      {
        PreviewFollows(handle, app, chunks);
      }
    } else {
      var chunks := HazardShows(handle, app, stream);
    }
  }

  lemma NextIsDelivered<A>(handle: Handler<A>, app: A, buffer: Bytes)
    requires NextIsGood(handle, app, buffer)
    ensures |Drain(handle, app, buffer).log| >= 1
  {
  }

  lemma TwoChunks<A>(handle: Handler<A>, app: A, x: Bytes, y: Bytes)
    ensures Joined([x, y]) == x + y
    ensures var d := Drain(handle, app, x);
            PreviewFeedAll(handle, app, [x, y]).log == d.log + Drain(handle, d.app, d.rest + y).log
  {
    hide Drain;
    assert [x, y][..1] == [x] && [x][..0] == [];
    assert [] + x == x;
    assert Joined([x]) == x;
    assert PreviewFeedAll(handle, app, []) == Opened(app);
    assert PreviewFeedAll(handle, app, [x][..0]) == Opened(app);
    var first := PreviewFeedAll(handle, app, [x]);
    assert first == PreviewFeed(handle, Opened(app), x);
    assert PreviewFeedAll(handle, app, [x, y]) == PreviewFeed(handle, first, y);
    assert [] + Drain(handle, app, x).log == Drain(handle, app, x).log;
  }

  lemma HazardShows<A>(handle: Handler<A>, app: A, stream: Bytes) returns (chunks: seq<Bytes>)
    requires Hazard(handle, app, stream)
    ensures Joined(chunks) == stream && |PreviewFeedAll(handle, app, chunks).log| > |Drain(handle, app, stream).log|
  {
    hide Drain, HeadOf, WriteFrames, PreviewFeedAll, Joined;
    var d := Drain(handle, app, stream);
    var x := WriteFrames(d.log);
    ThrownPrefix(handle, app, stream);
    DrainConserves(handle, app, stream);
    TwoChunks(handle, app, x, d.rest);
    NextIsDelivered(handle, d.app, d.rest);
    assert [] + d.rest == d.rest;
    chunks := [x, d.rest];
  }

  /** What a line is to the listeners of a relay; JSON is opaque. */
  datatype Frame = NoJson | Null | Message(ready: bool)

  const NULL_LINE: Bytes := [110, 117, 108, 108]

  /** The relay as the supervisor opens it: until the `ready` frame, a listener reads the type of every
      frame, and `null`, which is JSON, has none. The state says whether the frame has come. */
  function WhileOpening(frame: Bytes -> Frame): (h: Handler<bool>) {
    (ready, line) =>
      match frame(line)
      case NoJson => Malformed
      case Null => if ready then Went(ready) else Threw(ready)
      case Message(r) => Went(ready || r)
  }

  /** So the condition fails of a stream that the relay's other end can write: `null` and any frame
      before the relay is ready. Read at once, the frame is dropped; read in two chunks, delivered. */
  lemma NullBeforeReady(frame: Bytes -> Frame, line: Bytes) returns (chunks: seq<Bytes>)
    requires frame(NULL_LINE).Null? && Sendable(line) && frame(line).Message?
    ensures var stream := WriteFrames([NULL_LINE, line]);
            && Hazard(WhileOpening(frame), false, stream)
            && PreviewFeedAll(WhileOpening(frame), false, [stream]).log == [NULL_LINE]
            && Joined(chunks) == stream && |PreviewFeedAll(WhileOpening(frame), false, chunks).log| >= 2
  {
    var handle, stream := WhileOpening(frame), WriteFrames([NULL_LINE, line]);
    assert [NULL_LINE, line][1..] == [line] && [line][1..] == [];
    assert WriteFrames([]) == [] && WriteFrames([line]) == Written(line) + WriteFrames([line][1..]);
    assert stream == Written(NULL_LINE) + (Written(line) + []);
    assert handle(false, NULL_LINE) == Threw(false) && handle(false, line).Went?;
    HeadWritten(NULL_LINE, Written(line) + []);
    HeadWritten(line, []);
    assert Drain(handle, false, stream) == Drained(false, Written(line) + [], Thrown, [NULL_LINE]);
    chunks := HazardShows(handle, false, stream);
    assert [stream][..0] == [] && [] + stream == stream;
    assert PreviewFeedAll(handle, false, []) == Opened(false);
    assert PreviewFeedAll(handle, false, [stream]) == PreviewFeed(handle, Opened(false), stream);
    assert [] + [NULL_LINE] == [NULL_LINE];
  }

  /** Frames written by a sender are read back, each once and in order, by the relay, the supervisor
      and a gateway that does not close on them, under any chunking, as long as the handler takes them. */
  lemma FramesArrive<A(!new)>(handle: Handler<A>, gone: A -> bool, app: A, lines: seq<Bytes>, chunks: seq<Bytes>)
    requires (forall line :: line in lines ==> Sendable(line)) && Taken(handle, app, lines).Went?
    requires Joined(chunks) == WriteFrames(lines)
    ensures RelayFeedAll(handle, app, chunks) == Reader(Taken(handle, app, lines).app, [], false, lines)
    ensures PreviewFeedAll(handle, app, chunks) == Reader(Taken(handle, app, lines).app, [], false, lines)
    ensures Ignores(handle, gone) && !gone(app) && !gone(Taken(handle, app, lines).app) ==>
              BrokerFeedAll(handle, gone, app, chunks) == Reader(Taken(handle, app, lines).app, [], false, lines)
  {
    DrainReads(handle, app, lines);
    RelayIgnoresChunks(handle, app, chunks);
    if Ignores(handle, gone) && !gone(app) { BrokerIgnoresChunks(handle, gone, app, chunks); }
    PreviewFollows(handle, app, chunks);
  }
}
