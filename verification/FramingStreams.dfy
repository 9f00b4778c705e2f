/** Streams of frames: they can be read one way only, and whatever is read between them, they deliver what was sent
    (`DirectPeer` in holdem/ice_peer.py). */
module FramingStreams {
  import opened Pots
  import opened Settlement
  import opened Framing

  // ------------------------------------------------- streams read one way

  lemma FrameParts(id: int, total: int, data: Bytes, offset: nat)
    requires Word(id) && Word(total) && offset <= |data| <= total
    ensures var f, end := FramesFrom(id, total, data, offset), Min(offset + FRAME_PAYLOAD, |data|);
            && |f| > 0 && |f[0]| >= HEADER && f[0] == PackHeader(id, total, offset) + data[offset..end]
            && HeaderOf(f[0]) == Header(MAGIC, id, total, offset) && f[0][HEADER..] == data[offset..end]
            && f[1..] == if end == |data| then [] else FramesFrom(id, total, data, end)
  {
    hide PackHeader, HeaderOf;
    HeaderRead(id, total, offset, data[offset..Min(offset + FRAME_PAYLOAD, |data|)]);
  }

  /** The frames of `data`, whole frames or all of `q`, lead the frames of `q` only if `data` leads `q`. */
  lemma {:induction false} FramesLead(id: int, q: Bytes, data: Bytes, offset: nat, rest: seq<Bytes>)
    requires Word(id) && Word(|q|) && offset <= |data| <= |q| && (|data| == |q| || (offset < |data| && Whole(|data| - offset)))
    requires FramesFrom(id, |q|, data, offset) <= FramesFrom(id, |q|, q, offset) + rest
    ensures data[offset..] == q[offset..|data|]
    decreases |data| - offset
  {
    hide FramesFrom, HeaderOf, PackHeader, Whole;
    var a, b := FramesFrom(id, |q|, data, offset), FramesFrom(id, |q|, q, offset);
    FrameParts(id, |q|, data, offset);
    FrameParts(id, |q|, q, offset);
    var end := Min(offset + FRAME_PAYLOAD, |data|);
    if |data| < |q| { WholeLess(|data| - offset); }
    assert Min(offset + FRAME_PAYLOAD, |q|) == end;
    assert a[0] == (b + rest)[0] == b[0];
    assert data[offset..end] == q[offset..end];
    if end < |data| {
      assert a[1..] <= (b + rest)[1..] == b[1..] + rest;
      FramesLead(id, q, data, end, rest);
      assert data[offset..] == data[offset..end] + data[end..];
      assert q[offset..|data|] == q[offset..end] + q[end..|data|];
    }
  }

  /** The frames of a message are those of any whole-frame beginning of it, then those of the rest. */
  lemma {:induction false} FramesSplit(id: int, q: Bytes, h: nat, offset: nat)
    requires Word(id) && Word(|q|) && offset < h < |q| && Whole(h - offset)
    ensures FramesFrom(id, |q|, q, offset) == FramesFrom(id, |q|, q[..h], offset) + FramesFrom(id, |q|, q, h)
    decreases h - offset
  {
    hide FramesFrom, HeaderOf, PackHeader, Whole;
    var a, b := FramesFrom(id, |q|, q, offset), FramesFrom(id, |q|, q[..h], offset);
    FrameParts(id, |q|, q, offset);
    FrameParts(id, |q|, q[..h], offset);
    WholeLess(h - offset);
    var end := offset + FRAME_PAYLOAD;
    assert q[..h][offset..end] == q[offset..end];
    assert a == [a[0]] + a[1..] && b == [b[0]] + b[1..];
    if end < h {
      FramesSplit(id, q, h, end);
    }
  }

  /** A stream is the frames of its first message, then the stream of the others. */
  lemma {:induction false} StreamHead(id: int, messages: seq<Bytes>)
    requires Sendable(id, messages) && |messages| > 0
    ensures Sendable(id + 1, messages[1..]) && Stream(id, messages) == Frames(id, messages[0]) + Stream(id + 1, messages[1..])
    decreases |messages|
  {
    hide Frames;
    var k := |messages| - 1;
    if k > 0 {
      StreamHead(id, messages[..k]);
      assert messages[..k][1..] == messages[1..][..k - 1];
      assert messages[1..][k - 1] == messages[k];
    }
  }

  /** Part of a message: its length and the bytes so far, whole frames of it. */
  predicate PartOk(total: int, data: Bytes) {
    0 < |data| < total && Word(total) && Whole(|data|)
  }

  /** The frames of some messages and of part of the next one. */
  function Encoded(id: int, got: seq<Bytes>, part: Option<(int, Bytes)>): (r: seq<Bytes>)
    requires Sendable(id, got) && (part.Some? ==> Word(id + |got|) && PartOk(part.value.0, part.value.1))
  {
    Stream(id, got) + (if part.None? then [] else FramesFrom(id + |got|, part.value.0, part.value.1, 0))
  }

  /** What has come in is a beginning of what was sent. */
  predicate Begins(got: seq<Bytes>, part: Option<(int, Bytes)>, messages: seq<Bytes>) {
    && got <= messages
    && (part.Some? ==> |got| < |messages| && part.value.0 == |messages[|got|]| && part.value.1 <= messages[|got|])
  }

  lemma SameTotal(id: int, total: int, data: Bytes, q: Bytes, rest: seq<Bytes>, more: seq<Bytes>)
    requires Word(id) && Word(total) && |data| <= total && Word(|q|)
    requires FramesFrom(id, total, data, 0) + rest <= Frames(id, q) + more
    ensures total == |q|
  {
    hide FramesFrom, HeaderOf;
    FrameParts(id, total, data, 0);
    FrameParts(id, |q|, q, 0);
    assert (FramesFrom(id, total, data, 0) + rest)[0] == (Frames(id, q) + more)[0];
  }

  lemma LeadCancels(a: seq<Bytes>, x: seq<Bytes>, y: seq<Bytes>)
    requires a + x <= a + y
    ensures x <= y
  {
    assert x == (a + x)[|a|..] && y == (a + y)[|a|..];
  }

  /** Main result: streams are read one way. If the frames so far lead a stream, the messages so far lead its messages,
      and the part in progress leads the next one. */
  lemma {:induction false} StreamReadOneWay(id: int, got: seq<Bytes>, part: Option<(int, Bytes)>, messages: seq<Bytes>)
    requires Sendable(id, got) && (part.Some? ==> Word(id + |got|) && PartOk(part.value.0, part.value.1))
    requires Sendable(id, messages) && Encoded(id, got, part) <= Stream(id, messages)
    ensures Begins(got, part, messages)
    decreases |got|
  {
    hide FramesFrom, Stream, Frames;
    if |got| == 0 {
      NoFrames(id, got);
      assert forall f: seq<Bytes> :: [] + f == f;
      if part.Some? { PartLeads(id, part.value.0, part.value.1, messages); }
    } else {
      StreamHead(id, got);
      assert Encoded(id, got, part) == Frames(id, got[0]) + Encoded(id + 1, got[1..], part);
      NotEmpty(id, got[0], messages, Encoded(id + 1, got[1..], part));
      StreamHead(id, messages);
      FirstSame(id, got[0], messages[0], Encoded(id + 1, got[1..], part), Stream(id + 1, messages[1..]));
      StreamReadOneWay(id + 1, got[1..], part, messages[1..]);
      BeginsOn(got, part, messages);
    }
  }

  lemma BeginsOn(got: seq<Bytes>, part: Option<(int, Bytes)>, messages: seq<Bytes>)
    requires |got| > 0 && |messages| > 0 && got[0] == messages[0] && Begins(got[1..], part, messages[1..])
    ensures Begins(got, part, messages)
  {
    assert got == [got[0]] + got[1..] && messages == [messages[0]] + messages[1..];
  }

  lemma NotEmpty(id: int, p: Bytes, messages: seq<Bytes>, rest: seq<Bytes>)
    requires Word(id) && Word(|p|) && Sendable(id, messages) && Frames(id, p) + rest <= Stream(id, messages)
    ensures |messages| > 0
  {
    hide FramesFrom;
    FrameParts(id, |p|, p, 0);
  }

  /** A first message that leads a stream is its first message. */
  lemma FirstSame(id: int, p: Bytes, q: Bytes, rest: seq<Bytes>, more: seq<Bytes>)
    requires Word(id) && Word(|p|) && Word(|q|) && Frames(id, p) + rest <= Frames(id, q) + more
    ensures p == q && rest <= more
  {
    hide FramesFrom;
    SameTotal(id, |p|, p, q, rest, more);
    var a, b := Frames(id, p), Frames(id, q);
    assert a <= b + more by { assert a <= a + rest; }
    FramesLead(id, q, p, 0, more);
    assert p == p[0..] && q == q[0..|p|];
    LeadCancels(a, rest, more);
  }

  lemma PartLeads(id: int, total: int, data: Bytes, messages: seq<Bytes>)
    requires Word(id) && PartOk(total, data) && Sendable(id, messages)
    requires FramesFrom(id, total, data, 0) <= Stream(id, messages)
    ensures |messages| > 0 && total == |messages[0]| && data <= messages[0]
  {
    hide FramesFrom, Frames, Stream, Whole, HeaderOf, PackHeader;
    FrameParts(id, total, data, 0);
    NoFrames(id, messages);
    StreamHead(id, messages);
    PartOfFirst(id, total, data, messages[0], Stream(id + 1, messages[1..]));
  }

  lemma NoFrames(id: int, messages: seq<Bytes>)
    requires Sendable(id, messages)
    ensures |messages| == 0 ==> Stream(id, messages) == []
  {
  }

  lemma PartOfFirst(id: int, total: int, data: Bytes, q: Bytes, more: seq<Bytes>)
    requires Word(id) && PartOk(total, data) && Word(|q|) && FramesFrom(id, total, data, 0) <= Frames(id, q) + more
    ensures total == |q| && data <= q
  {
    hide FramesFrom;
    assert FramesFrom(id, total, data, 0) + [] == FramesFrom(id, total, data, 0);
    SameTotal(id, total, data, q, [], more);
    FramesLead(id, q, data, 0, more);
    assert data == data[0..] && q[0..|data|] == q[..|data|];
  }

  /** Two lists of messages with the same frames are the same list. */
  lemma StreamInjective(id: int, a: seq<Bytes>, b: seq<Bytes>)
    requires Sendable(id, a) && Sendable(id, b)
    ensures Stream(id, a) == Stream(id, b) <==> a == b
  {
    hide Stream;
    if Stream(id, a) == Stream(id, b) {
      assert Encoded(id, a, None) == Stream(id, a) && Encoded(id, b, None) == Stream(id, b);
      StreamReadOneWay(id, a, None, b);
      StreamReadOneWay(id, b, None, a);
    }
  }

  /** The frames held of the message in progress lead the frames of every message it can become. */
  lemma PartLeadsMessage(r: Inbox, q: Bytes)
    requires InboxOk(r) && r.partial.Some? && Word(r.next) && Word(|q|) && r.total == |q| && r.partial.value <= q
    ensures PartFrames(r) <= Frames(r.next, q)
  {
    hide FramesFrom, Size;
    FramesSplit(r.next, q, |r.partial.value|, 0);
    assert q[..|r.partial.value|] == r.partial.value;
  }

  // --------------------------------------------- a beginning of a stream

  /** The message in progress, its length and bytes so far. */
  function InProgress(r: Inbox): (p: Option<(int, Bytes)>) {
    if r.partial.None? then None else Some((r.total, r.partial.value))
  }

  lemma FaithfulIs(r: Inbox, frames: seq<Bytes>, got: seq<Bytes>)
    requires Faithful(r, frames, got)
    ensures Sendable(1, got) && r.next == 1 + |got|
    ensures r.partial.Some? ==> Word(1 + |got|) && PartOk(r.total, r.partial.value)
    ensures frames == Encoded(1, got, InProgress(r))
  {
    hide Stream, FramesFrom, Size;
  }

  /** The messages handed out or held. */
  function Received(limit: nat, inputs: seq<Input>): (r: seq<Bytes>) {
    GivenAll(NewInbox(limit), inputs) + FedAll(NewInbox(limit), inputs).queue
  }

  /** Main result: whatever beginning of a stream arrives, and whatever is read meanwhile, a peer that has not failed has a
      beginning of the messages sent, and of the next one the bytes that came; with the whole stream it has them all. */
  lemma ReceivesPrefix(limit: nat, inputs: seq<Input>, messages: seq<Bytes>)
    requires Word(limit) && Sendable(1, messages) && FramesIn(inputs) <= Stream(1, messages)
    requires !FedAll(NewInbox(limit), inputs).stopped
    ensures Begins(Received(limit, inputs), InProgress(FedAll(NewInbox(limit), inputs)), messages)
    ensures FramesIn(inputs) == Stream(1, messages) ==>
              Received(limit, inputs) == messages && FedAll(NewInbox(limit), inputs).partial.None?
  {
    hide FedAll, GivenAll, FramesIn, Stream, Faithful, Encoded;
    var r, got := FedAll(NewInbox(limit), inputs), Received(limit, inputs);
    ReceivesOnlyStreams(limit, inputs);
    FaithfulIs(r, FramesIn(inputs), got);
    StreamReadOneWay(1, got, InProgress(r), messages);
    if FramesIn(inputs) == Stream(1, messages) && |got| < |messages| {
      StillToCome(1, got, InProgress(r), messages);
    }
  }

  lemma {:induction false} StreamConcat(id: int, a: seq<Bytes>, b: seq<Bytes>)
    requires Sendable(id, a + b)
    ensures Sendable(id, a) && (|b| > 0 ==> Sendable(id + |a|, b))
    ensures |b| > 0 ==> Stream(id, a + b) == Stream(id, a) + Stream(id + |a|, b)
    decreases |b|
  {
    hide Frames;
    assert forall k :: 0 <= k < |a| ==> a[k] == (a + b)[k];
    assert forall k :: 0 <= k < |b| ==> b[k] == (a + b)[|a| + k];
    if |b| > 0 {
      var k := |b| - 1;
      assert (a + b)[..|a| + k] == a + b[..k];
      if k > 0 {
        StreamConcat(id, a, b[..k]);
      } else {
        assert a + b[..0] == a && Stream(id + |a|, b[..0]) == [];
      }
    }
  }

  /** The stream from message `m` on. */
  lemma StreamAt(id: int, messages: seq<Bytes>, m: nat)
    requires Sendable(id, messages) && m < |messages|
    ensures Sendable(id, messages[..m]) && Word(id + m) && Word(|messages[m]|) && Sendable(id + m + 1, messages[m + 1..])
    ensures Stream(id, messages)
         == Stream(id, messages[..m]) + (Frames(id + m, messages[m]) + Stream(id + m + 1, messages[m + 1..]))
  {
    hide Frames, Stream;
    assert messages == messages[..m] + messages[m..];
    StreamConcat(id, messages[..m], messages[m..]);
    StreamHead(id + m, messages[m..]);
    assert messages[m..][1..] == messages[m + 1..];
  }

  /** The frames still to come of the message in progress. */
  function ToCome(id: int, q: Bytes, part: Option<(int, Bytes)>): (r: seq<Bytes>)
    requires Word(id) && Word(|q|) && (part.Some? ==> |part.value.1| <= |q|)
  {
    FramesFrom(id, |q|, q, if part.None? then 0 else |part.value.1|)
  }

  /** What follows the frames so far in the stream. */
  lemma Follow(id: int, got: seq<Bytes>, part: Option<(int, Bytes)>, messages: seq<Bytes>)
    requires Sendable(id, got) && (part.Some? ==> Word(id + |got|) && PartOk(part.value.0, part.value.1))
    requires Sendable(id, messages) && Begins(got, part, messages) && |got| < |messages|
    ensures Word(id + |got|) && Word(|messages[|got|]|) && Sendable(id + |got| + 1, messages[|got| + 1..])
    ensures Stream(id, messages)
         == Encoded(id, got, part)
            + (ToCome(id + |got|, messages[|got|], part) + Stream(id + |got| + 1, messages[|got| + 1..]))
  {
    hide FramesFrom, Stream, Whole;
    var m, q := |got|, messages[|got|];
    StreamAt(id, messages, m);
    assert messages[..m] == got;
    if part.Some? {
      var data := part.value.1;
      assert q[..|data|] == data;
      FramesSplit(id + m, q, |data|, 0);
    }
  }

  lemma StillToCome(id: int, got: seq<Bytes>, part: Option<(int, Bytes)>, messages: seq<Bytes>)
    requires Sendable(id, got) && (part.Some? ==> Word(id + |got|) && PartOk(part.value.0, part.value.1))
    requires Sendable(id, messages) && Begins(got, part, messages) && |got| < |messages|
    ensures Encoded(id, got, part) != Stream(id, messages)
  {
    hide FramesFrom, Stream, Encoded, Whole, HeaderOf, PackHeader;
    Follow(id, got, part, messages);
    var q := messages[|got|];
    FrameParts(id + |got|, |q|, q, if part.None? then 0 else |part.value.1|);
    assert |ToCome(id + |got|, q, part)| > 0;
  }

  // ------------------------------------------------- when a peer fails

  function TotalOf(frame: Bytes): (n: int) {
    if |frame| >= HEADER then HeaderOf(frame).total else 0
  }

  /** A message starts only with room for it, and none is given up half way. */
  predicate Undisturbed(r: Inbox, input: Input) {
    match input
    case Arrived(frame) => r.partial.None? ==> HasRoom(r, TotalOf(frame))
    case Take => true
    case Expired => r.partial.None?
  }

  predicate AllUndisturbed(limit: nat, inputs: seq<Input>) {
    |inputs| == 0 || (AllUndisturbed(limit, inputs[..|inputs| - 1])
      && Undisturbed(FedAll(NewInbox(limit), inputs[..|inputs| - 1]), inputs[|inputs| - 1]))
  }

  /** The next frame of the stream is taken, unless it starts a message there is no room for. */
  lemma NextTaken(r: Inbox, frame: Bytes, q: Bytes)
    requires InboxOk(r) && !r.stopped && Word(r.next) && Word(|q|) && |q| <= r.limit
    requires r.partial.Some? ==> r.total == |q| && r.partial.value <= q
    requires frame == ToCome(r.next, q, InProgress(r))[0]
    ensures OnFrame(r, frame).stopped <==> !Undisturbed(r, Arrived(frame))
  {
    hide FramesFrom, HeaderOf, PackHeader, Size;
    var offset := if r.partial.None? then 0 else |r.partial.value|;
    FrameParts(r.next, |q|, q, offset);
    FrameSize(r.next, |q|, offset, q[offset..Min(offset + FRAME_PAYLOAD, |q|)]);
  }

  lemma FrameSize(id: int, total: int, offset: int, data: Bytes)
    requires Word(id) && Word(total) && Word(offset) && |data| <= FRAME_PAYLOAD
    ensures HEADER <= |PackHeader(id, total, offset) + data| <= MAX_FRAME
  {
  }

  lemma FrameTaken(r: Inbox, frame: Bytes, frames: seq<Bytes>, got: seq<Bytes>, messages: seq<Bytes>)
    requires Faithful(r, frames, got) && !r.stopped && Sendable(1, messages) && frames + [frame] <= Stream(1, messages)
    requires forall k :: 0 <= k < |messages| ==> |messages[k]| <= r.limit
    ensures OnFrame(r, frame).stopped <==> !Undisturbed(r, Arrived(frame))
  {
    hide OnFrame, FramesFrom, Stream, Encoded, InboxOk, Undisturbed, Whole, HeaderOf, PackHeader, Faithful;
    FaithfulParts(r, frames, got);
    var part := InProgress(r);
    FaithfulIs(r, frames, got);
    assert frames <= frames + [frame];
    StreamReadOneWay(1, got, part, messages);
    MoreToCome(frames, frame, got, messages);
    Follow(1, got, part, messages);
    var q := messages[|got|];
    var rest := ToCome(1 + |got|, q, part);
    FrameParts(1 + |got|, |q|, q, if part.None? then 0 else |part.value.1|);
    NextIs(frames, frame, rest, Stream(2 + |got|, messages[|got| + 1..]));
    NextTaken(r, frame, q);
  }

  lemma FaithfulParts(r: Inbox, frames: seq<Bytes>, got: seq<Bytes>)
    requires Faithful(r, frames, got)
    ensures InboxOk(r) && Sendable(1, got) && Stream(1, got) <= frames
  {
    hide Stream, FramesFrom, Size;
  }

  lemma MoreToCome(frames: seq<Bytes>, frame: Bytes, got: seq<Bytes>, messages: seq<Bytes>)
    requires Sendable(1, messages) && Sendable(1, got) && got <= messages && frames + [frame] <= Stream(1, messages)
    requires Stream(1, got) <= frames
    ensures |got| < |messages|
  {
    hide Stream;
    assert |got| == |messages| ==> got == messages;
  }

  lemma NextIs(frames: seq<Bytes>, frame: Bytes, rest: seq<Bytes>, more: seq<Bytes>)
    requires |rest| > 0 && frames + [frame] <= frames + (rest + more)
    ensures frame == rest[0]
  {
    LeadCancels(frames, [frame], rest + more);
    assert [frame][0] == (rest + more)[0];
  }

  /** Main result: fed a beginning of a stream of messages within its limit, with reads and time-outs anywhere between the
      frames, a peer goes on exactly if every message starts with room for it and none is given up half way; then it has
      the messages whose frames have all come. */
  lemma {:induction false} StreamDelivers(limit: nat, inputs: seq<Input>, messages: seq<Bytes>)
    requires Word(limit) && Sendable(1, messages) && FramesIn(inputs) <= Stream(1, messages)
    requires forall k :: 0 <= k < |messages| ==> |messages[k]| <= limit
    ensures !FedAll(NewInbox(limit), inputs).stopped <==> AllUndisturbed(limit, inputs)
    ensures AllUndisturbed(limit, inputs) ==> Received(limit, inputs) <= messages
    ensures AllUndisturbed(limit, inputs) && FramesIn(inputs) == Stream(1, messages) ==> Received(limit, inputs) == messages
  {
    hide Stream, Received, Faithful, OnFrame, Undisturbed;
    if |inputs| > 0 {
      var k := |inputs| - 1;
      var r := FedAll(NewInbox(limit), inputs[..k]);
      assert FramesIn(inputs[..k]) <= FramesIn(inputs);
      StreamDelivers(limit, inputs[..k], messages);
      StoppedStays(r, inputs[k]);
      if !r.stopped {
        ReceivesOnlyStreams(limit, inputs[..k]);
        SameLimit(limit, inputs[..k]);
        match inputs[k]
        case Arrived(frame) => FrameTaken(r, frame, FramesIn(inputs[..k]), GivenAll(NewInbox(limit), inputs[..k]) + r.queue, messages);
        case Take => OthersTaken(r, inputs[k]);
        case Expired => OthersTaken(r, inputs[k]);
      }
    }
    if !FedAll(NewInbox(limit), inputs).stopped { ReceivesPrefix(limit, inputs, messages); }
  }

  lemma OthersTaken(r: Inbox, input: Input)
    requires !r.stopped && !input.Arrived?
    ensures Fed(r, input).stopped <==> !Undisturbed(r, input)
  {
  }

  lemma {:induction false} SameLimit(limit: nat, inputs: seq<Input>)
    ensures FedAll(NewInbox(limit), inputs).limit == limit
  {
    if |inputs| > 0 { SameLimit(limit, inputs[..|inputs| - 1]); }
  }
}
