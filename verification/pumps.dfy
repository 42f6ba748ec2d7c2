/** The two per-connection goroutines of `pkg/core.go`, reduced to what they
    do with the hub: the reader feeds decoded envelopes to the dispatcher and
    asks for teardown when reading fails; the writer drains the queue onto
    the wire in order. Deadlines, pings as timers and the socket library are
    outside the model: each read or wake-up is given as input. */
module Pumps {
  import opened Wrappers
  import opened Models
  import opened Hub
  import opened Websocket

  /** The result of one `ReadMessage`: a frame of `size` bytes and what
      decoding it left in the reader's local envelope, or a read error.
      `decoded` is None when the local stays the zero envelope: the bytes are
      not JSON, or no field decoded. A frame with one mistyped field still
      yields `Some` of the fields that did decode, since the JSON decoder keeps
      going past a type error; so such a frame with a string `payload_type` is
      dispatched under that tag. */
  datatype Inbound = Received(size: nat, decoded: Option<SocketEvent>) | ReadFailed

  /** A read error, or a frame over the read limit (which the socket library
      reports as a read error), ends the reader loop. */
  predicate EndsSession(f: Inbound) {
    f.ReadFailed? || f.size > SocketMaxMessageSize
  }

  /** Index of the first read that ends the loop, or the number of reads.
      Like `WriterStop` and `Triggers.FirstUndecodable`, a first-match search,
      kept in each loop's own terms so its contract names the loop's condition. */
  function FirstEnd(inbound: seq<Inbound>): (n: nat)
    ensures n <= |inbound|
    ensures forall i :: 0 <= i < n ==> !EndsSession(inbound[i])
    ensures n < |inbound| ==> EndsSession(inbound[n])
    decreases |inbound|
  {
    if |inbound| == 0 then 0
    else if EndsSession(inbound[0]) then 0
    else 1 + FirstEnd(inbound[1..])
  }

  /** How the reader loop left things: the hub state, the number of frames
      handed to the dispatcher, and whether a Destroy request was submitted. */
  datatype ReaderExit = ReaderExit(core: Core, handled: nat, destroyRequested: bool)

  /** The reader loop over a finite run of reads. A frame that fails to decode
      is still dispatched, as whatever the decoder left in the local variable
      (the empty envelope when nothing decoded), and the dispatcher's error is
      discarded: neither ends the loop. */
  function ReadPump(core: Core, c: ClientId, inbound: seq<Inbound>): (r: ReaderExit)
    requires c in core.clients && ActiveOpen(core) && !core.clients[c].queue.closed
    ensures r.destroyRequested <==> exists i :: 0 <= i < |inbound| && EndsSession(inbound[i])
    ensures r.handled == FirstEnd(inbound)
    ensures Registry(r.core) == Registry(core) && r.core.clients.Keys == core.clients.Keys
    ensures ActiveOpen(r.core) && !r.core.clients[c].queue.closed
    decreases |inbound|
  {
    if |inbound| == 0 then ReaderExit(core, 0, false)
    else if EndsSession(inbound[0]) then ReaderExit(core, 0, true)
    else
      var next := ApplyEvent(core, c, inbound[0].decoded.GetOr(ZeroEvent));
      assert Active(next) == Active(core) by {
        assert forall d :: IsActive(next, d) <==> IsActive(core, d) by {
          assert forall d :: d in Registry(next) <==> d in Registry(core);
        }
      }
      var rest := ReadPump(next, c, inbound[1..]);
      assert forall i :: 0 <= i < |inbound| - 1 ==> inbound[1..][i] == inbound[i + 1];
      ReaderExit(rest.core, rest.handled + 1, rest.destroyRequested)
  }

  /** The envelope left when nothing decoded has the empty tag, which the
      dispatcher refuses without touching the hub. */
  lemma ZeroEventRefused(core: Core, c: ClientId)
    requires c in core.clients
    ensures HandleEvent(core, c, ZeroEvent) == Err(InvalidPayload)
  {
  }

  /** A frame within the read limit from which nothing decoded is skipped:
      the session goes on exactly as if it had not arrived. */
  lemma MalformedFrameSkipped(core: Core, c: ClientId, size: nat, rest: seq<Inbound>)
    requires c in core.clients && ActiveOpen(core) && !core.clients[c].queue.closed
    requires size <= SocketMaxMessageSize
    ensures ReadPump(core, c, [Received(size, None)] + rest)
            == ReadPump(core, c, rest).(handled := ReadPump(core, c, rest).handled + 1)
  {
    var inbound := [Received(size, None)] + rest;
    assert inbound[1..] == rest;
    ZeroEventRefused(core, c);
  }

  /** What wakes the writer: an event taken from the queue (with whether
      writing it out succeeded), the queue found closed, or the ping ticker
      (with whether the ping was sent). */
  datatype Wake = Dequeued(ev: SocketEvent, writeOk: bool) | QueueClosed | PingTick(pingOk: bool)

  /** What the writer puts on the wire. */
  datatype WireFrame = TextFrame(ev: SocketEvent) | CloseFrame | PingFrame

  /** A failed write, a closed queue or a failed ping ends the writer. */
  predicate StopsWriter(w: Wake) {
    (w.Dequeued? && !w.writeOk) || w.QueueClosed? || (w.PingTick? && !w.pingOk)
  }

  /** Index of the wake-up that ends the writer, or the number of wake-ups
      (the first-match search of `FirstEnd`, for the writer). */
  function WriterStop(wakes: seq<Wake>): (n: nat)
    ensures n <= |wakes|
    ensures forall i :: 0 <= i < n ==> !StopsWriter(wakes[i])
    ensures n < |wakes| ==> StopsWriter(wakes[n])
    decreases |wakes|
  {
    if |wakes| == 0 then 0
    else if StopsWriter(wakes[0]) then 0
    else 1 + WriterStop(wakes[1..])
  }

  /** The events taken from the queue, in the order they were taken. */
  function DequeuedEvents(wakes: seq<Wake>): seq<SocketEvent>
    decreases |wakes|
  {
    if |wakes| == 0 then []
    else
      DequeuedEvents(wakes[..|wakes| - 1])
      + (if wakes[|wakes| - 1].Dequeued? then [wakes[|wakes| - 1].ev] else [])
  }

  /** The events written as text frames, in wire order. */
  function TextEvents(frames: seq<WireFrame>): seq<SocketEvent>
    decreases |frames|
  {
    if |frames| == 0 then []
    else
      TextEvents(frames[..|frames| - 1])
      + (if frames[|frames| - 1].TextFrame? then [frames[|frames| - 1].ev] else [])
  }

  lemma TextEventsSnoc(frames: seq<WireFrame>, f: WireFrame)
    ensures TextEvents(frames + [f]) == TextEvents(frames) + (if f.TextFrame? then [f.ev] else [])
  {
    assert (frames + [f])[..|frames|] == frames;
  }

  lemma DequeuedSnoc(wakes: seq<Wake>, i: nat)
    requires i < |wakes|
    ensures DequeuedEvents(wakes[..i + 1])
            == DequeuedEvents(wakes[..i]) + (if wakes[i].Dequeued? then [wakes[i].ev] else [])
  {
    assert wakes[..i + 1][..i] == wakes[..i];
  }

  /** The writer loop over a finite run of wake-ups. Every event taken before
      the writer stops is written, in the order taken; a close frame is sent
      exactly when it stops on a closed queue, and nothing follows it. */
  method WritePump(wakes: seq<Wake>) returns (frames: seq<WireFrame>, stopped: bool)
    ensures stopped <==> WriterStop(wakes) < |wakes|
    ensures TextEvents(frames) == DequeuedEvents(wakes[..WriterStop(wakes)])
    ensures CloseFrame in frames <==> stopped && wakes[WriterStop(wakes)].QueueClosed?
    ensures CloseFrame in frames ==> frames[|frames| - 1] == CloseFrame
  {
    frames := [];
    var i := 0;
    while i < |wakes| && !StopsWriter(wakes[i])
      invariant i <= WriterStop(wakes)
      invariant TextEvents(frames) == DequeuedEvents(wakes[..i])
      invariant CloseFrame !in frames
    {
      var f := if wakes[i].Dequeued? then TextFrame(wakes[i].ev) else PingFrame;
      TextEventsSnoc(frames, f);
      DequeuedSnoc(wakes, i);
      frames := frames + [f];
      i := i + 1;
    }
    stopped := i < |wakes|;
    if stopped && wakes[i].QueueClosed? {
      // best effort: the outcome of sending the close frame changes nothing
      TextEventsSnoc(frames, CloseFrame);
      frames := frames + [CloseFrame];
    }
  }

  /** The events taken up to any point are a prefix of all the events taken. */
  lemma {:induction false} DequeuedPrefix(wakes: seq<Wake>, k: nat)
    requires k <= |wakes|
    ensures DequeuedEvents(wakes[..k]) <= DequeuedEvents(wakes)
    decreases |wakes| - k
  {
    if k < |wakes| {
      var longer := wakes[..k + 1];
      assert longer[..k] == wakes[..k];
      assert DequeuedEvents(wakes[..k]) <= DequeuedEvents(longer);
      DequeuedPrefix(wakes, k + 1);
    } else {
      assert wakes[..k] == wakes;
    }
  }

  /** First in, first out: when the writer takes events from the queue in the
      order they were sent (a channel's guarantee), what it writes is a prefix
      of what was sent. */
  lemma WrittenInQueueOrder(wakes: seq<Wake>, q: Queue, frames: seq<WireFrame>)
    requires DequeuedEvents(wakes) <= q.sent
    requires TextEvents(frames) == DequeuedEvents(wakes[..WriterStop(wakes)])
    ensures TextEvents(frames) <= q.sent
  {
    DequeuedPrefix(wakes, WriterStop(wakes));
  }
}
