/** The three reading loops as the programs run them, over the theory in Framing: the supervisor's
    `PreviewRelay`, the relay's own input and the gateway's `BrokerConnection`. */
module FrameReaders {
  import opened Octets
  import opened Framing

  /** A pass that has handed over `done` and goes on with what is left. */
  function GoneOn<A>(done: seq<Bytes>, d: Drained<A>): (r: Drained<A>) {
    d.(log := done + d.log)
  }

  lemma OneLineOn<A>(handle: Handler<A>, app: A, buffer: Bytes, done: seq<Bytes>)
    ensures var h := HeadOf(buffer);
            h.Line? && handle(app, h.line).Went? ==>
              GoneOn(done, Drain(handle, app, buffer)) ==
                GoneOn(done + [h.line], Drain(handle, handle(app, h.line).app, h.tail))
  {
    hide HeadOf;
    var h := HeadOf(buffer);
    if h.Line? && handle(app, h.line).Went? {
      var e := Drain(handle, handle(app, h.line).app, h.tail);
      assert done + ([h.line] + e.log) == done + [h.line] + e.log;
    }
  }

  lemma StoppedOn<A>(handle: Handler<A>, app: A, buffer: Bytes, done: seq<Bytes>)
    ensures var h := HeadOf(buffer);
            && (h.Partial? ==> GoneOn(done, Drain(handle, app, buffer)) == Drained(app, buffer, Waiting, done))
            && (h.TooLong? || (h.Line? && handle(app, h.line).Malformed?) ==>
                  GoneOn(done, Drain(handle, app, buffer)) == Drained(app, buffer, Jammed, done))
            && (h.Line? && handle(app, h.line).Threw? ==>
                  GoneOn(done, Drain(handle, app, buffer)) ==
                    Drained(handle(app, h.line).app, h.tail, Thrown, done + [h.line]))
  {
    hide HeadOf;
    assert done + [] == done;
  }

  lemma NothingDone<A>(d: Drained<A>)
    ensures GoneOn([], d) == d
  {
    assert [] + d.log == d.log;
  }

  /** The loop that all three run over their buffer: take lines until none is left, one is too long,
      one does not parse, or taking one throws. */
  method ReadLines<A>(handle: Handler<A>, start: A, input: Bytes) returns (d: Drained<A>)
    ensures d == Drain(handle, start, input)
  {
    hide Drain;
    var app, buffer, log := start, input, [];
    NothingDone(Drain(handle, app, buffer));
    while true
      invariant Drain(handle, start, input) == GoneOn(log, Drain(handle, app, buffer))
      decreases |buffer|
    {
      OneLineOn(handle, app, buffer, log);
      StoppedOn(handle, app, buffer, log);
      var at := Find(buffer, NEWLINE, 0);
      if at < 0 { return Drained(app, buffer, if |buffer| > FRAME_BYTES then Jammed else Waiting, log); }
      if at > FRAME_BYTES { return Drained(app, buffer, Jammed, log); }
      var line := buffer[..at];
      var reply := handle(app, line);
      if reply.Malformed? { return Drained(app, buffer, Jammed, log); }
      app, buffer, log := reply.app, buffer[at + 1..], log + [line];
      if reply.Threw? { return Drained(app, buffer, Thrown, log); }
    }
  }

  class PreviewRelay<A(!new)> {
    const handle: Handler<A>
    var app: A
    var buffer: Bytes
    var ended: bool
    ghost var log: seq<Bytes>

    ghost function View(): (s: Reader<A>)
      reads this
    {
      Reader(app, buffer, ended, log)
    }

    constructor (handle: Handler<A>, app: A)
      ensures this.handle == handle && View() == Opened(app)
    {
      this.handle := handle;
      this.app := app;
      buffer := [];
      ended := false;
      log := [];
    }

    /** The `data` listener. An error aborts the relay, and the next chunk is read all the same. */
    method OnData(chunk: Bytes)
      modifies this
      ensures View() == PreviewFeed(handle, old(View()), chunk)
    {
      var d := ReadLines(handle, app, buffer + chunk);
      app, buffer, log := d.app, d.rest, log + d.log;
      if !d.stop.Waiting? { ended := true; }
    }

    /** `send`: refuse on a closed relay, an oversized frame or a full backlog. */
    method Send(line: Bytes, backlog: nat) returns (sent: bool)
      requires NEWLINE !in line
      ensures sent <==> !ended && Sendable(line) && backlog + |Written(line)| <= BACKLOG_BYTES
    {
      if ended { return false; }
      var data := Written(line);
      sent := !(|data| > FRAME_BYTES || backlog + |data| > BACKLOG_BYTES);
    }
  }

  class RelayInput<A(!new)> {
    const handle: Handler<A>
    var app: A
    var buffer: Bytes
    var closed: bool
    ghost var log: seq<Bytes>

    ghost function View(): (s: Reader<A>)
      reads this
    {
      Reader(app, buffer, closed, log)
    }

    constructor (handle: Handler<A>, app: A)
      ensures this.handle == handle && View() == Opened(app)
    {
      this.handle := handle;
      this.app := app;
      buffer := [];
      closed := false;
      log := [];
    }

    /** The relay's `data` listener: nothing is read after a shutdown. */
    method OnData(chunk: Bytes)
      modifies this
      ensures View() == RelayFeed(handle, old(View()), chunk)
    {
      if closed { return; }
      var d := ReadLines(handle, app, buffer + chunk);
      app, buffer, log := d.app, d.rest, log + d.log;
      closed := !d.stop.Waiting?;
    }
  }

  class BrokerConnection<A(!new)> {
    const handle: Handler<A>
    const gone: A -> bool
    var app: A
    var buffer: Bytes
    var destroyed: bool
    ghost var log: seq<Bytes>

    ghost function View(): (s: Reader<A>)
      reads this
    {
      Reader(app, buffer, destroyed, log)
    }

    constructor (handle: Handler<A>, gone: A -> bool, app: A)
      ensures this.handle == handle && this.gone == gone && View() == Opened(app)
    {
      this.handle := handle;
      this.gone := gone;
      this.app := app;
      buffer := [];
      destroyed := false;
      log := [];
    }

    /** The socket's `data` listener. A destroyed socket has no more data events; one that the
        handler itself closed meanwhile still finishes the chunk at hand. */
    method OnData(chunk: Bytes)
      modifies this
      ensures View() == BrokerFeed(handle, gone, old(View()), chunk)
    {
      if destroyed { return; }
      var d := ReadLines(handle, app, buffer + chunk);
      app, buffer, log := d.app, d.rest, log + d.log;
      destroyed := !d.stop.Waiting? || gone(app);
    }
  }
}
