/**
 Length-prefixed messages over a byte stream: the blocking one-shot receive, and the panel's incremental
 reading and writing with partial reads and writes, which must come to the same messages.
 */
module Framing {
  import opened Bytes

  type Text = seq<byte>

  const HEADER: nat := 4

  /** The largest payload that a channel takes; its length must fit the header. */
  type Limit = n: nat | n < U32

  const PANEL_LIMIT: Limit := 8 * 1024 * 1024
  const INFERENCE_LIMIT: Limit := 64 * 1024

  /** `_encode_frame` of a payload whose length fits the header. */
  function Frame(payload: Text): Text
    requires |payload| < U32
  {
    PutBe32(|payload|) + payload
  }

  predicate Sendable(messages: seq<Text>, limit: Limit) {
    forall i | 0 <= i < |messages| :: |messages[i]| <= limit
  }

  function Frames(messages: seq<Text>, limit: Limit): Text
    requires Sendable(messages, limit)
  {
    if messages == [] then [] else Frame(messages[0]) + Frames(messages[1..], limit)
  }

  // ---------- what a stream says ----------

  /** The first thing in a stream: a whole frame, one that is still incomplete, or one that is too large. */
  datatype Head = Whole(payload: Text, size: nat) | Incomplete | TooLarge

  function HeadOf(stream: Text, limit: Limit): (h: Head)
    ensures h.Whole? ==> HEADER <= h.size <= |stream| && |h.payload| <= limit
  {
    if |stream| < HEADER then Incomplete
    else
      var n := Be32(stream[..HEADER]);
      if n > limit then TooLarge
      else if |stream| < HEADER + n then Incomplete
      else Whole(stream[HEADER..HEADER + n], HEADER + n)
  }

  /** Repeated one-shot receives: the payloads of the whole frames, and what is left. */
  datatype Parsed = Parsed(messages: seq<Text>, rest: Text)

  function Parse(stream: Text, limit: Limit): Parsed
    decreases |stream|
  {
    match HeadOf(stream, limit)
    case Whole(payload, size) => var p := Parse(stream[size..], limit); Parsed([payload] + p.messages, p.rest)
    case _ => Parsed([], stream)
  }

  /** A whole frame is its own printing, whatever follows it. */
  lemma HeadOfFrame(payload: Text, tail: Text, limit: Limit)
    requires |payload| <= limit
    ensures HeadOf(Frame(payload) + tail, limit) == Whole(payload, |Frame(payload)|)
    ensures (Frame(payload) + tail)[|Frame(payload)|..] == tail
  {
    assert (Frame(payload) + tail)[..HEADER] == PutBe32(|payload|);
  }

  lemma FrameOfHead(stream: Text, limit: Limit)
    requires HeadOf(stream, limit).Whole?
    ensures stream == Frame(HeadOf(stream, limit).payload) + stream[HeadOf(stream, limit).size..]
  {
    var n := Be32(stream[..HEADER]);
    PutBe32Inverse(stream[..HEADER]);
    assert stream == stream[..HEADER] + stream[HEADER..HEADER + n] + stream[HEADER + n..];
  }

  lemma ParseStep(stream: Text, payload: Text, rest: Text, limit: Limit)
    requires |payload| <= limit && stream == Frame(payload) + rest
    ensures Parse(stream, limit) == Parsed([payload] + Parse(rest, limit).messages, Parse(rest, limit).rest)
  {
    HeadOfFrame(payload, rest, limit);
  }

  /** Reading back what was written: every message once, in order, and the rest untouched. */
  lemma {:induction false} ParseOfFrames(messages: seq<Text>, tail: Text, limit: Limit)
    requires Sendable(messages, limit)
    ensures Parse(Frames(messages, limit) + tail, limit) ==
            Parsed(messages + Parse(tail, limit).messages, Parse(tail, limit).rest)
    decreases |messages|
  {
    if messages == [] {
      assert Frames(messages, limit) + tail == tail;
      assert messages + Parse(tail, limit).messages == Parse(tail, limit).messages;
    } else {
      var head, rest := Frame(messages[0]), Frames(messages[1..], limit);
      ParseOfFrames(messages[1..], tail, limit);
      AppendAssociates(head, rest, tail);
      ParseStep(Frames(messages, limit) + tail, messages[0], rest + tail, limit);
      assert messages == [messages[0]] + messages[1..];
      AppendAssociates([messages[0]], messages[1..], Parse(tail, limit).messages);
    }
  }

  lemma AppendAssociates<T>(a: seq<T>, b: seq<T>, c: seq<T>)
    ensures (a + b) + c == a + (b + c)
  {
  }

  lemma FramesStep(payload: Text, messages: seq<Text>, limit: Limit)
    requires |payload| <= limit && Sendable(messages, limit)
    ensures Sendable([payload] + messages, limit)
    ensures Frames([payload] + messages, limit) == Frame(payload) + Frames(messages, limit)
  {
    assert ([payload] + messages)[1..] == messages;
  }

  /** Writing back what was read: the stream is the frames of its messages and an incomplete or oversized rest. */
  lemma {:induction false} FramesOfParse(stream: Text, limit: Limit)
    ensures Sendable(Parse(stream, limit).messages, limit) && !HeadOf(Parse(stream, limit).rest, limit).Whole?
    ensures stream == Frames(Parse(stream, limit).messages, limit) + Parse(stream, limit).rest
    decreases |stream|
  {
    if HeadOf(stream, limit).Whole? {
      var payload, after := HeadOf(stream, limit).payload, stream[HeadOf(stream, limit).size..];
      FrameOfHead(stream, limit);
      FramesOfParse(after, limit);
      ParseStep(stream, payload, after, limit);
      FramesStep(payload, Parse(after, limit).messages, limit);
      AppendAssociates(Frame(payload), Frames(Parse(after, limit).messages, limit), Parse(after, limit).rest);
    } else {
      assert stream == Frames([], limit) + stream;
    }
  }

  lemma HeadStays(stream: Text, more: Text, limit: Limit)
    requires !HeadOf(stream, limit).Incomplete?
    ensures HeadOf(stream + more, limit) == HeadOf(stream, limit)
  {
    assert (stream + more)[..HEADER] == stream[..HEADER];
  }

  /** Splitting the stream anywhere changes nothing: parse what is there, and later the rest with what came. */
  lemma {:induction false} ParseInPieces(stream: Text, more: Text, limit: Limit)
    ensures Parse(stream + more, limit) ==
            Parsed(Parse(stream, limit).messages + Parse(Parse(stream, limit).rest + more, limit).messages,
                                           Parse(Parse(stream, limit).rest + more, limit).rest)
    decreases |stream|
  {
    FramesOfParse(stream, limit);
    var p := Parse(stream, limit);
    AppendAssociates(Frames(p.messages, limit), p.rest, more);
    ParseOfFrames(p.messages, p.rest + more, limit);
  }

  /** Any prefix of what a sender wrote yields a prefix of its messages, and never looks oversized. */
  lemma {:induction false} PrefixYieldsPrefix(messages: seq<Text>, received: Text, unsent: Text, limit: Limit)
    requires Sendable(messages, limit) && received + unsent == Frames(messages, limit)
    ensures Parse(received, limit).messages <= messages && HeadOf(Parse(received, limit).rest, limit).Incomplete?
  {
    ParseOfFrames(messages, [], limit);
    assert Frames(messages, limit) + [] == received + unsent;
    assert messages + Parse([], limit).messages == messages;
    ParseInPieces(received, unsent, limit);
    FramesOfParse(received, limit);
    var rest := Parse(received, limit).rest;
    assert HeadOf(rest, limit).TooLarge? ==> Parse(rest + unsent, limit).rest == rest + unsent by {
      if HeadOf(rest, limit).TooLarge? { HeadStays(rest, unsent, limit); }
    }
    assert HeadOf([], limit).Incomplete?;
  }

  // ---------- the one-shot receive ----------

  /** One wait for the socket: some bytes of what the peer sent, nothing yet, or the end of the stream. */
  datatype Recv = Gets(atMost: nat) | Blocks | PeerClosed

  datatype Received = Content(bytes: Text) | Eof | TimedOut | Oversized

  function Least(a: nat, b: nat): nat { if a < b then a else b }

  /** How many of the bytes the reader needs the waits give it, of those the peer has sent, up to the end of the stream. */
  function ReadBy(waits: seq<Recv>, needed: nat, available: nat): (n: nat)
    ensures n <= needed && n <= available
  {
    if needed == 0 || waits == [] || waits[0].PeerClosed? then 0
    else if waits[0].Blocks? then ReadBy(waits[1..], needed, available)
    else
      var n := Least(Least(waits[0].atMost, needed), available);
      n + ReadBy(waits[1..], needed - n, available - n)
  }

  /** The waits behind such a read. */
  function WaitsLeft(waits: seq<Recv>, needed: nat, available: nat): seq<Recv> {
    if needed == 0 || waits == [] then waits
    else
      match waits[0]
      case PeerClosed => waits[1..]
      case Blocks => WaitsLeft(waits[1..], needed, available)
      case Gets(atMost) =>
        var n := Least(Least(atMost, needed), available);
        WaitsLeft(waits[1..], needed - n, available - n)
  }

  /** The stream ends while bytes are still needed. */
  predicate EndsEarly(waits: seq<Recv>, needed: nat, available: nat) {
    needed > 0 && waits != [] &&
    match waits[0]
    case PeerClosed => true
    case Blocks => EndsEarly(waits[1..], needed, available)
    case Gets(atMost) =>
      var n := Least(Least(atMost, needed), available);
      EndsEarly(waits[1..], needed - n, available - n)
  }

  /** What the waits offer between them. */
  function Offered(waits: seq<Recv>): nat {
    if waits == [] then 0 else (if waits[0].Gets? then waits[0].atMost else 0) + Offered(waits[1..])
  }

  /** Bytes that were sent and are offered in time are read, however the waits split them and however often they block. */
  lemma {:induction false} EnoughArrives(waits: seq<Recv>, needed: nat, available: nat)
    requires PeerClosed !in waits && Offered(waits) >= needed && available >= needed
    ensures ReadBy(waits, needed, available) == needed && !EndsEarly(waits, needed, available)
    decreases |waits|
  {
    if needed > 0 {
      assert PeerClosed !in waits[1..];
      var n := if waits[0].Gets? then Least(Least(waits[0].atMost, needed), available) else 0;
      if n < needed {
        EnoughArrives(waits[1..], needed - n, available - n);
      }
    }
  }

  /** A blocking channel; its deadline expires when the waits run out. */
  class Channel {
    const limit: Limit
    var unread: Text       // what the peer has sent and nobody has read
    var waits: seq<Recv>
    const late: bool       // the deadline has passed when a receive completes

    constructor (limit: Limit, unread: Text, waits: seq<Recv>, late: bool)
      ensures this.limit == limit && this.unread == unread && this.waits == waits && this.late == late
    {
      this.limit, this.unread, this.waits, this.late := limit, unread, waits, late;
    }

    /** `_receive_exact`: exactly the next bytes, however they arrive, and exactly when they arrive in time. */
    method ReceiveExact(size: nat) returns (r: Received)
      modifies this`unread, this`waits
      ensures unread == old(unread)[ReadBy(old(waits), size, |old(unread)|)..]
      ensures waits == WaitsLeft(old(waits), size, |old(unread)|)
      ensures r.Content? <==> !late && ReadBy(old(waits), size, |old(unread)|) == size
      ensures r.Content? ==> r.bytes == old(unread)[..size]
      ensures r.Eof? <==> EndsEarly(old(waits), size, |old(unread)|)
      ensures !r.Oversized?
    {
      var content: Text := [];
      while |content| < size
        invariant |content| <= size && old(unread) == content + unread
        invariant |content| + ReadBy(waits, size - |content|, |unread|) == ReadBy(old(waits), size, |old(unread)|)
        invariant WaitsLeft(waits, size - |content|, |unread|) == WaitsLeft(old(waits), size, |old(unread)|)
        invariant EndsEarly(waits, size - |content|, |unread|) == EndsEarly(old(waits), size, |old(unread)|)
        decreases |waits|
      {
        if waits == [] {
          return TimedOut;
        }
        var w := waits[0];
        waits := waits[1..];
        if w.PeerClosed? {
          return Eof;
        }
        if w.Gets? {
          var n := Least(Least(w.atMost, size - |content|), |unread|);
          content := content + unread[..n];
          unread := unread[n..];
        }
      }
      r := if late then TimedOut else Content(content);
    }

    /** The frame at the front of the stream fits the limit, and its header and then its payload arrive in time. */
    predicate Delivers(stream: Text, waits: seq<Recv>)
    {
      && !late && HeadOf(stream, limit).Whole?
      && ReadBy(waits, HEADER, |stream|) == HEADER
      && ReadBy(WaitsLeft(waits, HEADER, |stream|), Be32(stream[..HEADER]), |stream| - HEADER) == Be32(stream[..HEADER])
    }

    /** The stream ends inside its next header, or inside the payload that a header within the limit announces. */
    predicate EndsInFrame(stream: Text, waits: seq<Recv>) {
      || EndsEarly(waits, HEADER, |stream|)
      || (!late && ReadBy(waits, HEADER, |stream|) == HEADER && !HeadOf(stream, limit).TooLarge?
          && EndsEarly(WaitsLeft(waits, HEADER, |stream|), Be32(stream[..HEADER]), |stream| - HEADER))
    }

    /** `receive`: the payload of the next frame, and nothing beyond it, exactly when the frame arrives in time. */
    method ReceiveFrame() returns (r: Received)
      modifies this`unread, this`waits
      ensures r.Content? <==> Delivers(old(unread), old(waits))
      ensures r.Content? ==>
                && HeadOf(old(unread), limit) == Whole(r.bytes, HEADER + |r.bytes|)
                && unread == old(unread)[HEADER + |r.bytes|..] && waits == WaitsBehind(old(unread), old(waits))
      ensures r.Oversized? <==>
              !late && ReadBy(old(waits), HEADER, |old(unread)|) == HEADER && HeadOf(old(unread), limit).TooLarge?
      ensures r.Eof? <==> EndsInFrame(old(unread), old(waits))
    {
      ghost var stream := unread;
      var header := ReceiveExact(HEADER);
      if !header.Content? {
        return header;
      }
      assert stream[..HEADER] == header.bytes;
      var size := Be32(header.bytes);
      if size > limit {
        return Oversized;
      }
      r := ReceiveExact(size);
      if r.Content? {
        assert stream[HEADER..HEADER + size] == r.bytes && stream[HEADER + size..] == unread;
      }
    }

    /** The waits behind a delivered frame. */
    function WaitsBehind(stream: Text, waits: seq<Recv>): seq<Recv>
      requires |stream| >= HEADER
    {
      WaitsLeft(WaitsLeft(waits, HEADER, |stream|), Be32(stream[..HEADER]), |stream| - HEADER)
    }

    /** How many of so many frames arrive in time, one behind the other. */
    function Delivered(stream: Text, waits: seq<Recv>, count: nat): nat
    {
      if count == 0 || !Delivers(stream, waits) then 0
      else 1 + Delivered(stream[HEADER + Be32(stream[..HEADER])..], WaitsBehind(stream, waits), count - 1)
    }

    /** Repeated receives read the stream's messages, one after another, up to the first that does not arrive. */
    method ReceiveFrames(count: nat) returns (messages: seq<Text>, ok: bool)
      modifies this`unread, this`waits
      ensures messages <= Parse(old(unread), limit).messages
      ensures |messages| == Delivered(old(unread), old(waits), count)
      ensures ok <==> |messages| == count
      ensures ok ==> Parse(old(unread), limit) ==
                     Parsed(messages + Parse(unread, limit).messages, Parse(unread, limit).rest)
    {
      hide ReadBy, WaitsLeft, EndsEarly;
      if count == 0 {
        return [], true;
      }
      var r := ReceiveFrame();
      if !r.Content? {
        return [], false;
      }
      ghost var next := Parse(unread, limit);
      assert Parse(old(unread), limit) == Parsed([r.bytes] + next.messages, next.rest);
      messages, ok := ReceiveFrames(count - 1);
      AppendAssociates([r.bytes], messages, Parse(unread, limit).messages);
      messages := [r.bytes] + messages;
    }
  }

  // ---------- the incremental endpoint ----------

  /** A non-blocking socket's answers: reads end with a would-block, writes may take any part. */
  datatype Drain = Drained | ParentClosed | FrameTooLarge | Invalid

  datatype Reply = Replies(payload: Text) | Rejects

  /** How many of the pending bytes the writes from number i on take, up to one that reports the peer gone. */
  function Taken(writes: seq<int>, i: nat, pending: nat): (n: nat)
    ensures n <= pending
    decreases |writes| - i
  {
    if pending == 0 || i >= |writes| || writes[i] <= 0 then 0
    else
      var n := Least(writes[i], pending);
      n + Taken(writes, i + 1, pending - n)
  }

  /** Some write from number i on reports the peer gone while bytes are pending. */
  predicate Refused(writes: seq<int>, i: nat, pending: nat)
    decreases |writes| - i
  {
    pending > 0 && i < |writes|
    && (writes[i] <= 0 || Refused(writes, i + 1, pending - Least(writes[i], pending)))
  }

  function Sum(writes: seq<int>, i: nat): int
    decreases |writes| - i
  {
    if i >= |writes| then 0 else writes[i] + Sum(writes, i + 1)
  }

  /** Writes that may take enough between them empty the buffer, however they are split. */
  lemma {:induction false} EnoughWritesFlush(writes: seq<int>, i: nat, pending: nat)
    requires (forall j | i <= j < |writes| :: writes[j] > 0) && Sum(writes, i) >= pending
    ensures Taken(writes, i, pending) == pending && !Refused(writes, i, pending)
    decreases |writes| - i
  {
    if pending > 0 && i < |writes| {
      var n := Least(writes[i], pending);
      if n < pending {
        EnoughWritesFlush(writes, i + 1, pending - n);
      }
    }
  }

  /** The bytes of the chunks from number i on, up to the first empty one. */
  function ArrivedFrom(chunks: seq<Text>, i: nat): Text
    decreases |chunks| - i
  {
    if i >= |chunks| || chunks[i] == [] then [] else chunks[i] + ArrivedFrom(chunks, i + 1)
  }

  class PanelEndpoint {
    const limit: Limit
    const handle: Text -> Reply
    var incoming: Text
    var outgoing: Text
    ghost var received: Text           // every byte ever read
    ghost var sent: Text               // every byte ever written
    ghost var dispatched: seq<Text>    // every request handled, in order
    ghost var queued: seq<Text>        // every reply queued, in order

    constructor (limit: Limit, handle: Text -> Reply)
      ensures Valid() && this.limit == limit && this.handle == handle
      ensures received == [] && sent == [] && dispatched == [] && queued == []
    {
      this.limit, this.handle := limit, handle;
      incoming, outgoing, received, sent, dispatched, queued := [], [], [], [], [], [];
    }

    /** Nothing is lost, duplicated or reordered in either direction. */
    ghost predicate Valid()
      reads this
    {
      && Sendable(queued, limit) && sent + outgoing == Frames(queued, limit)
      && Parse(received, limit) == Parsed(dispatched + Parse(incoming, limit).messages, Parse(incoming, limit).rest)
    }

    /** Each handled request has its one reply queued, in order. */
    ghost predicate Answered()
      reads this
    {
      AnsweredBut(0)
    }

    /** So has each but that many of the last ones. */
    ghost predicate AnsweredBut(last: nat)
      reads this
    {
      && |queued| + last == |dispatched|
      && forall i | 0 <= i < |queued| :: handle(dispatched[i]) == Replies(queued[i])
    }

    /** The request has a reply that fits a frame. */
    predicate Answerable(request: Text) {
      handle(request).Replies? && |handle(request).payload| <= limit
    }

    method QueueMessage(payload: Text) returns (ok: bool)
      requires Valid()
      modifies this`outgoing, this`queued
      ensures Valid() && ok == (|payload| <= limit)
      ensures queued == if ok then old(queued) + [payload] else old(queued)
    {
      ok := |payload| <= limit;
      if ok {
        FramesAppend(queued, payload, limit);
        AppendAssociates(sent, outgoing, Frame(payload));
        outgoing := outgoing + Frame(payload);
        queued := queued + [payload];
      }
    }

    /** `flush_messages`: each write takes what it may until nothing is left, the socket blocks, or the peer is gone. */
    method FlushMessages(writes: seq<int>) returns (ok: bool)
      requires Valid()
      modifies this`outgoing, this`sent
      ensures Valid() && old(sent) <= sent && |sent| == |old(sent)| + Taken(writes, 0, |old(outgoing)|)
      ensures ok <==> !Refused(writes, 0, |old(outgoing)|)
    {
      var i := 0;
      while outgoing != [] && i < |writes|
        invariant sent + outgoing == old(sent) + old(outgoing) && old(sent) <= sent && i <= |writes|
        invariant |sent| + Taken(writes, i, |outgoing|) == |old(sent)| + Taken(writes, 0, |old(outgoing)|)
        invariant Refused(writes, i, |outgoing|) == Refused(writes, 0, |old(outgoing)|)
        decreases |writes| - i
      {
        if writes[i] <= 0 {
          return false;
        }
        var n := Least(writes[i], |outgoing|);
        assert outgoing == outgoing[..n] + outgoing[n..];
        AppendAssociates(sent, outgoing[..n], outgoing[n..]);
        sent := sent + outgoing[..n];
        outgoing := outgoing[n..];
        i := i + 1;
      }
      ok := true;
    }

    /** The reading loop of `drain_messages`: every chunk until the socket would block; an empty one is its end. */
    method ReadChunks(chunks: seq<Text>) returns (open: bool)
      requires Valid()
      modifies this`incoming, this`received
      ensures Valid() && received == old(received) + ArrivedFrom(chunks, 0)
      ensures open <==> [] !in chunks
    {
      for i := 0 to |chunks|
        invariant Valid() && received + ArrivedFrom(chunks, i) == old(received) + ArrivedFrom(chunks, 0)
        invariant forall j | 0 <= j < i :: chunks[j] != []
      {
        if chunks[i] == [] {
          return false;
        }
        AppendAssociates(received, chunks[i], ArrivedFrom(chunks, i + 1));
        TakeChunk(chunks[i]);
      }
      open := true;
    }

    method TakeChunk(chunk: Text)
      requires Valid()
      modifies this`incoming, this`received
      ensures Valid() && received == old(received) + chunk && incoming == old(incoming) + chunk
    {
      ParseInPieces(received, chunk, limit);
      ParseInPieces(incoming, chunk, limit);
      AppendAssociates(dispatched, Parse(incoming, limit).messages,
                       Parse(Parse(incoming, limit).rest + chunk, limit).messages);
      received := received + chunk;
      incoming := incoming + chunk;
    }

    /** `drain_messages`: whatever way the bytes arrived, the requests handled are those of the stream so far. */
    method DrainMessages(chunks: seq<Text>) returns (d: Drain)
      requires Valid() && Answered()
      modifies this`incoming, this`received, this`dispatched, this`outgoing, this`queued
      ensures Valid() && received == old(received) + ArrivedFrom(chunks, 0) && old(dispatched) <= dispatched
      ensures d.ParentClosed? <==> [] in chunks
      ensures d.ParentClosed? ==> dispatched == old(dispatched)
      ensures d.Drained? ==> Settled() && HeadOf(incoming, limit).Incomplete? && Answered()
      ensures d.FrameTooLarge? ==> Settled() && HeadOf(incoming, limit).TooLarge? && Answered()
      ensures d.Invalid? ==> dispatched != [] && !Answerable(dispatched[|dispatched| - 1]) && AnsweredBut(1)
    {
      var open := ReadChunks(chunks);
      if open {
        d := HandleFrames();
      } else {
        d := ParentClosed;
      }
    }

    /** The second loop of `drain_messages`: every whole frame that is buffered. */
    method HandleFrames() returns (d: Drain)
      requires Valid() && Answered()
      modifies this`incoming, this`dispatched, this`outgoing, this`queued
      ensures Valid() && old(dispatched) <= dispatched && !d.ParentClosed?
      ensures d.Drained? ==> Settled() && HeadOf(incoming, limit).Incomplete? && Answered()
      ensures d.FrameTooLarge? ==> Settled() && HeadOf(incoming, limit).TooLarge? && Answered()
      ensures d.Invalid? ==> dispatched != [] && !Answerable(dispatched[|dispatched| - 1]) && AnsweredBut(1)
    {
      while |incoming| >= HEADER
        invariant Valid() && Answered() && old(dispatched) <= dispatched
        decreases |incoming|
      {
        var size := Be32(incoming[..HEADER]);
        if size > limit {
          NothingWhole();
          return FrameTooLarge;
        }
        if |incoming| < HEADER + size {
          NothingWhole();
          return Drained;
        }
        var payload := incoming[HEADER..HEADER + size];
        var ok := DispatchFrame(payload, HEADER + size);
        if !ok {
          return Invalid;
        }
      }
      NothingWhole();
      d := Drained;
    }

    /** The handled requests are those of the stream so far, and the buffer is what is left of it. */
    ghost predicate Settled()
      reads this
    {
      Parse(received, limit) == Parsed(dispatched, incoming)
    }

    lemma NothingWhole()
      requires Valid() && !HeadOf(incoming, limit).Whole?
      ensures Settled()
    {
      assert dispatched + [] == dispatched;
    }

    /** Cuts the first frame off, handles its request and queues the reply. */
    method DispatchFrame(payload: Text, size: nat) returns (ok: bool)
      requires Valid() && Answered() && HeadOf(incoming, limit) == Whole(payload, size)
      modifies this`incoming, this`dispatched, this`outgoing, this`queued
      ensures Valid() && incoming == old(incoming)[size..] && dispatched == old(dispatched) + [payload]
      ensures if ok then Answered() else !Answerable(payload) && queued == old(queued)
    {
      hide HeadOf, Frames, Sendable;
      AppendAssociates(dispatched, [payload], Parse(incoming[size..], limit).messages);
      incoming := incoming[size..];
      dispatched := dispatched + [payload];
      match handle(payload) {
        case Rejects => ok := false;
        case Replies(reply) => ok := QueueMessage(reply);
      }
    }
  }

  lemma {:induction false} FramesAppend(messages: seq<Text>, payload: Text, limit: Limit)
    requires Sendable(messages, limit) && |payload| <= limit
    ensures Sendable(messages + [payload], limit)
    ensures Frames(messages + [payload], limit) == Frames(messages, limit) + Frame(payload)
    decreases |messages|
  {
    if messages == [] {
      FramesStep(payload, [], limit);
      assert messages + [payload] == [payload] + [];
    } else {
      FramesAppend(messages[1..], payload, limit);
      FramesStep(messages[0], messages[1..] + [payload], limit);
      assert messages + [payload] == [messages[0]] + (messages[1..] + [payload]);
      AppendAssociates(Frame(messages[0]), Frames(messages[1..], limit), Frame(payload));
    }
  }
}
