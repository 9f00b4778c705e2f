/** The framing of messages over a data channel (`DirectPeer` in holdem/ice_peer.py). */
module Framing {
  import opened Pots
  import opened Settlement

  type Byte = b: int | 0 <= b < 256

  type Bytes = seq<Byte>

  const MAX_FRAME := 16384
  const HEADER := 16
  const FRAME_PAYLOAD := 16368
  const QUEUE_MESSAGES := 8
  const LAST_ID := 0xffffffff
  const MAGIC: Bytes := [72, 80, 68, 49]

  // ------------------------------------------------------------- headers

  predicate Word(n: int) {
    0 <= n <= LAST_ID
  }

  /** Big-endian, as `struct` packs "!I". */
  function Pack(n: int): (r: Bytes)
    requires Word(n)
    ensures |r| == 4
  {
    [n / 16777216, n / 65536 % 256, n / 256 % 256, n % 256]
  }

  function Unpack(b: Bytes): (n: int)
    requires |b| == 4
    ensures Word(n)
  {
    Weighed(b[0], b[1], b[2], b[3])
  }

  function Weighed(a: int, b: int, c: int, d: int): int {
    a * 16777216 + b * 65536 + c * 256 + d
  }

  lemma Halved(n: int, m: int)
    requires n >= 0 && m == n / 256
    ensures n == m * 256 + n % 256
  {
  }

  lemma Digits(n: int)
    requires n >= 0
    ensures Weighed(n / 16777216, n / 65536 % 256, n / 256 % 256, n % 256) == n
  {
    var m, h, t := n / 256, n / 65536, n / 16777216;
    Halved(n, m);
    assert h == m / 256;
    Halved(m, h);
    assert t == h / 256;
    Halved(h, t);
  }

  lemma UnpackPack(n: int)
    requires Word(n)
    ensures Unpack(Pack(n)) == n
  {
    Digits(n);
  }

  lemma DigitsBack(a: int, b: int, c: int, d: int)
    requires 0 <= a < 256 && 0 <= b < 256 && 0 <= c < 256 && 0 <= d < 256
    ensures var n := Weighed(a, b, c, d);
            n / 16777216 == a && n / 65536 % 256 == b && n / 256 % 256 == c && n % 256 == d
  {
    var n, m, h := Weighed(a, b, c, d), a * 65536 + b * 256 + c, a * 256 + b;
    assert n == m * 256 + d && n / 256 == m;
    assert m == h * 256 + c && n / 65536 == h;
    assert n / 16777216 == a;
  }

  lemma PackUnpack(b: Bytes)
    requires |b| == 4
    ensures Pack(Unpack(b)) == b
  {
    DigitsBack(b[0], b[1], b[2], b[3]);
  }

  datatype Header = Header(magic: Bytes, id: int, total: int, offset: int)

  function PackHeader(id: int, total: int, offset: int): (r: Bytes)
    requires Word(id) && Word(total) && Word(offset)
    ensures |r| == HEADER
  {
    MAGIC + Pack(id) + Pack(total) + Pack(offset)
  }

  function HeaderOf(frame: Bytes): (h: Header)
    requires |frame| >= HEADER
  {
    Header(frame[..4], Unpack(frame[4..8]), Unpack(frame[8..12]), Unpack(frame[12..16]))
  }

  lemma HeaderRead(id: int, total: int, offset: int, data: Bytes)
    requires Word(id) && Word(total) && Word(offset)
    ensures var f := PackHeader(id, total, offset) + data;
            HeaderOf(f) == Header(MAGIC, id, total, offset) && f[HEADER..] == data
  {
    var f := PackHeader(id, total, offset) + data;
    assert f[..4] == MAGIC && f[4..8] == Pack(id) && f[8..12] == Pack(total) && f[12..16] == Pack(offset);
    UnpackPack(id);
    UnpackPack(total);
    UnpackPack(offset);
    assert f[HEADER..] == data;
  }

  lemma HeaderWritten(frame: Bytes)
    requires |frame| >= HEADER && frame[..4] == MAGIC
    ensures var h := HeaderOf(frame); frame == PackHeader(h.id, h.total, h.offset) + frame[HEADER..]
  {
    PackUnpack(frame[4..8]);
    PackUnpack(frame[8..12]);
    PackUnpack(frame[12..16]);
    assert frame == frame[..4] + frame[4..8] + frame[8..12] + frame[12..16] + frame[16..];
  }

  // ------------------------------------------------------------- sending

  /** The frames of the bytes `data` from `offset` on, in a message of `total` bytes. */
  function FramesFrom(id: int, total: int, data: Bytes, offset: nat): (r: seq<Bytes>)
    requires Word(id) && Word(total) && offset <= |data| <= total
    decreases |data| - offset
  {
    var end := Min(offset + FRAME_PAYLOAD, |data|);
    [PackHeader(id, total, offset) + data[offset..end]] + (if end == |data| then [] else FramesFrom(id, total, data, end))
  }

  /** A message in frames; an empty one still takes a frame. */
  function Frames(id: int, payload: Bytes): (r: seq<Bytes>)
    requires Word(id) && Word(|payload|)
  {
    FramesFrom(id, |payload|, payload, 0)
  }

  /** `_send_frames`, its loop over the offsets. */
  method SendFrames(id: int, payload: Bytes) returns (sent: seq<Bytes>)
    requires Word(id) && Word(|payload|)
    ensures sent == Frames(id, payload)
  {
    var n := (|payload| + FRAME_PAYLOAD - 1) / FRAME_PAYLOAD;
    var count := if n < 1 then 1 else n;
    sent := [];
    for index := 0 to count
      invariant index * FRAME_PAYLOAD <= |payload| || index == count
      invariant Frames(id, payload)
             == if index == count then sent else sent + FramesFrom(id, |payload|, payload, index * FRAME_PAYLOAD)
    {
      var offset := index * FRAME_PAYLOAD;
      var end := Min(offset + FRAME_PAYLOAD, |payload|);
      sent := sent + [PackHeader(id, |payload|, offset) + payload[offset..end]];
    }
  }

  // ----------------------------------------------------------- receiving

  /** The inbound half of a peer. */
  datatype Inbox = Inbox(
    limit: nat, queue: seq<Bytes>, queued: int, partial: Option<Bytes>, total: int, next: int, stopped: bool)

  function NewInbox(limit: nat): (r: Inbox) {
    Inbox(limit, [], 0, None, 0, 1, false)
  }

  /** `_fail`: nothing is kept. */
  function Failed(r: Inbox): (f: Inbox) {
    r.(stopped := true, partial := None, total := 0, queue := [], queued := 0)
  }

  /** The frame continues the message in progress, or starts the next one. */
  predicate Follows(r: Inbox, h: Header, size: nat) {
    && h.magic == MAGIC && h.id == r.next && h.total <= r.limit && h.offset == |r.partial.GetOr([])|
    && size == Min(FRAME_PAYLOAD, h.total - h.offset) && h.offset <= h.total
    && (r.partial.Some? ==> h.total == r.total)
  }

  /** A message of `total` bytes may start. */
  predicate HasRoom(r: Inbox, total: int) {
    r.queued + total <= 2 * r.limit && |r.queue| < QUEUE_MESSAGES
  }

  /** The data of an accepted frame. */
  function Extended(r: Inbox, total: int, data: Bytes): (s: Inbox) {
    var got := r.partial.GetOr([]) + data;
    if |got| == total then
      r.(partial := None, total := 0, next := r.next + 1, queued := r.queued + total, queue := r.queue + [got])
    else r.(partial := Some(got), total := total)
  }

  /** `_on_frame`. */
  function OnFrame(r: Inbox, frame: Bytes): (s: Inbox) {
    if r.stopped then r
    else if !(HEADER <= |frame| <= MAX_FRAME) then Failed(r)
    else
      var h, data := HeaderOf(frame), frame[HEADER..];
      if !Follows(r, h, |data|) || (r.partial.None? && !HasRoom(r, h.total)) then Failed(r)
      else Extended(r, h.total, data)
  }

  /** What reaches a peer: a frame, a reader, or the end of its patience with an unfinished message. */
  datatype Input = Arrived(frame: Bytes) | Take | Expired

  function Fed(r: Inbox, input: Input): (s: Inbox) {
    match input
    case Arrived(frame) => OnFrame(r, frame)
    case Take => if r.stopped || r.queue == [] then r else r.(queue := r.queue[1..], queued := r.queued - |r.queue[0]|)
    case Expired => if r.stopped || r.partial.None? then r else Failed(r)
  }

  /** What `receive` hands out on this input. */
  function Given(r: Inbox, input: Input): (out: seq<Bytes>) {
    if input.Take? && !r.stopped && r.queue != [] then [r.queue[0]] else []
  }

  function FedAll(r: Inbox, inputs: seq<Input>): (s: Inbox) {
    if |inputs| == 0 then r else Fed(FedAll(r, inputs[..|inputs| - 1]), inputs[|inputs| - 1])
  }

  function GivenAll(r: Inbox, inputs: seq<Input>): (out: seq<Bytes>) {
    if |inputs| == 0 then []
    else
      var k := |inputs| - 1;
      GivenAll(r, inputs[..k]) + Given(FedAll(r, inputs[..k]), inputs[k])
  }

  /** The frames among the inputs. */
  function FramesIn(inputs: seq<Input>): (r: seq<Bytes>) {
    if |inputs| == 0 then []
    else
      var k := |inputs| - 1;
      FramesIn(inputs[..k]) + (if inputs[k].Arrived? then [inputs[k].frame] else [])
  }

  // ----------------------------------------------------- bounded memory

  function Size(queue: seq<Bytes>): (n: int) {
    if |queue| == 0 then 0 else Size(queue[..|queue| - 1]) + |queue[|queue| - 1]|
  }

  lemma {:induction false} SizeHead(queue: seq<Bytes>)
    requires |queue| > 0
    ensures Size(queue) == |queue[0]| + Size(queue[1..])
    ensures Size(queue[1..]) >= 0
  {
    var k := |queue| - 1;
    if k > 0 {
      SizeHead(queue[..k]);
      assert queue[..k][1..] == queue[1..][..k - 1];
    }
  }

  /** Never more than eight messages, or two messages' bytes, are held; an unfinished message has whole frames. */
  predicate InboxOk(r: Inbox) {
    && r.queued == Size(r.queue) && |r.queue| <= QUEUE_MESSAGES && r.next >= 1 && r.queued >= 0
    && r.queued + r.total <= 2 * r.limit
    && (r.partial.None? ==> r.total == 0)
    && (r.partial.Some? ==> 0 < |r.partial.value| < r.total <= r.limit && Whole(|r.partial.value|)
                            && |r.queue| < QUEUE_MESSAGES)
  }

  lemma FedKeeps(r: Inbox, input: Input)
    requires InboxOk(r)
    ensures InboxOk(Fed(r, input))
  {
    match input
    case Arrived(frame) => OnFrameKeeps(r, frame);
    case Take => if r.queue != [] { SizeHead(r.queue); }
    case Expired =>
  }

  predicate Whole(n: int) {
    n % FRAME_PAYLOAD == 0
  }

  lemma WholeMore(n: int)
    requires Whole(n)
    ensures Whole(n + FRAME_PAYLOAD)
  {
  }

  lemma SizeMore(queue: seq<Bytes>, got: Bytes)
    ensures Size(queue + [got]) == Size(queue) + |got|
  {
    assert (queue + [got])[..|queue|] == queue;
  }

  lemma ExtendedKeeps(r: Inbox, total: int, data: Bytes)
    requires InboxOk(r) && total <= r.limit && (r.partial.Some? ==> total == r.total)
    requires |data| == Min(FRAME_PAYLOAD, total - |r.partial.GetOr([])|)
    requires r.partial.None? ==> HasRoom(r, total)
    ensures InboxOk(Extended(r, total, data))
  {
    hide Whole;
    var have := |r.partial.GetOr([])|;
    var got := r.partial.GetOr([]) + data;
    SizeMore(r.queue, got);
    if have + |data| < total {
      WholeStart();
      WholeMore(have);
    }
  }

  lemma WholeStart()
    ensures Whole(0)
  {
  }

  lemma OnFrameKeeps(r: Inbox, frame: Bytes)
    requires InboxOk(r)
    ensures InboxOk(OnFrame(r, frame))
  {
    hide HeaderOf, InboxOk, Extended;
    FailedOk(r);
    if !r.stopped && HEADER <= |frame| <= MAX_FRAME {
      var h, data := HeaderOf(frame), frame[HEADER..];
      if Follows(r, h, |data|) && (r.partial.Some? || HasRoom(r, h.total)) {
        ExtendedKeeps(r, h.total, data);
      }
    }
  }

  lemma FailedOk(r: Inbox)
    requires InboxOk(r)
    ensures InboxOk(Failed(r))
  {
  }

  // ------------------------------------- what is accepted is what was sent

  predicate Sendable(id: int, messages: seq<Bytes>) {
    1 <= id && id + |messages| - 1 <= LAST_ID && forall k :: 0 <= k < |messages| ==> Word(|messages[k]|)
  }

  /** The frames of messages numbered from `id` on. */
  function Stream(id: int, messages: seq<Bytes>): (r: seq<Bytes>)
    requires Sendable(id, messages)
  {
    if |messages| == 0 then []
    else
      var k := |messages| - 1;
      Stream(id, messages[..k]) + Frames(id + k, messages[k])
  }

  /** Appending a frame's data appends that frame. */
  lemma {:induction false} FramesGrow(id: int, total: int, data: Bytes, chunk: Bytes, offset: nat)
    requires Word(id) && Word(total) && |data| + |chunk| <= total && 0 < |chunk| <= FRAME_PAYLOAD
    requires offset < |data| && Whole(|data| - offset)
    ensures FramesFrom(id, total, data + chunk, offset)
         == FramesFrom(id, total, data, offset) + [PackHeader(id, total, |data|) + chunk]
    decreases |data| - offset
  {
    var all, end := data + chunk, offset + FRAME_PAYLOAD;
    WholeLess(|data| - offset);
    assert all[offset..end] == data[offset..end];
    if end == |data| {
      assert all[end..|all|] == chunk;
    } else {
      FramesGrow(id, total, data, chunk, end);
    }
  }

  lemma WholeLess(n: int)
    requires Whole(n) && n > 0
    ensures n >= FRAME_PAYLOAD && Whole(n - FRAME_PAYLOAD)
  {
  }

  /** The frames accepted of the message in progress. */
  function PartFrames(r: Inbox): (f: seq<Bytes>)
    requires r.partial.Some? ==> Word(r.next) && Word(r.total) && |r.partial.value| <= r.total
  {
    if r.partial.None? then [] else FramesFrom(r.next, r.total, r.partial.value, 0)
  }

  /** All frames so far are the frames of the messages so far, and of the part of the next one that has come. */
  ghost predicate Faithful(r: Inbox, frames: seq<Bytes>, messages: seq<Bytes>) {
    && InboxOk(r) && r.next == 1 + |messages| && Word(r.limit) && r.next <= LAST_ID + 1
    && (r.partial.Some? ==> Word(r.next))
    && Sendable(1, messages) && frames == Stream(1, messages) + PartFrames(r)
  }

  lemma FrameFaithful(r: Inbox, frame: Bytes, frames: seq<Bytes>, messages: seq<Bytes>)
    requires Faithful(r, frames, messages) && !OnFrame(r, frame).stopped
    ensures var h, data := HeaderOf(frame), frame[HEADER..];
            && OnFrame(r, frame) == Extended(r, h.total, data) && h.id == r.next && Word(h.id) && Word(h.total)
            && frame == PackHeader(r.next, h.total, |r.partial.GetOr([])|) + data
            && Follows(r, h, |data|)
  {
    HeaderWritten(frame);
  }

  /** The frames of the message in progress, once `data` has come. */
  lemma PartGrows(r: Inbox, total: int, data: Bytes)
    requires InboxOk(r) && Word(r.next) && Word(total) && (r.partial.Some? ==> total == r.total)
    requires |data| == Min(FRAME_PAYLOAD, total - |r.partial.GetOr([])|)
    ensures FramesFrom(r.next, total, r.partial.GetOr([]) + data, 0)
         == PartFrames(r) + [PackHeader(r.next, total, |r.partial.GetOr([])|) + data]
  {
    if r.partial.Some? {
      FramesGrow(r.next, total, r.partial.value, data, 0);
    } else {
      assert [] + data == data;
      assert data[0..|data|] == data;
    }
  }

  lemma StreamMore(messages: seq<Bytes>, got: Bytes)
    requires Sendable(1, messages) && 1 + |messages| <= LAST_ID && Word(|got|)
    ensures Sendable(1, messages + [got])
    ensures Stream(1, messages + [got]) == Stream(1, messages) + Frames(1 + |messages|, got)
  {
    hide Frames;
    var all := messages + [got];
    assert all[..|messages|] == messages && all[|messages|] == got;
    assert forall k :: 0 <= k < |all| ==> Word(|all[k]|);
  }

  lemma ExtendFaithful(r: Inbox, frame: Bytes, frames: seq<Bytes>, messages: seq<Bytes>)
    requires Faithful(r, frames, messages) && !OnFrame(r, frame).stopped && !r.stopped
    ensures var s := OnFrame(r, frame);
            var more := if |s.queue| > |r.queue| then [s.queue[|r.queue|]] else [];
            Faithful(s, frames + [frame], messages + more) && s.queue == r.queue + more
  {
    hide OnFrame, HeaderOf, FramesFrom, InboxOk, Stream, Pack;
    FrameFaithful(r, frame, frames, messages);
    OnFrameKeeps(r, frame);
    var s, h, data := OnFrame(r, frame), HeaderOf(frame), frame[HEADER..];
    var got := r.partial.GetOr([]) + data;
    PartGrows(r, h.total, data);
    assert Stream(1, messages) + PartFrames(r) + [frame] == Stream(1, messages) + (PartFrames(r) + [frame]);
    if |got| == h.total {
      StreamMore(messages, got);
      assert Stream(1, messages + [got]) + [] == Stream(1, messages + [got]);
    } else {
      assert messages + [] == messages;
    }
  }

  /** Main result: whatever arrives, a peer that has not failed has taken in exactly the frames of the messages it has
      handed out or holds, in order, and the frames of the one in progress: nothing is lost, reordered, merged or made up. */
  lemma {:induction false} ReceivesOnlyStreams(limit: nat, inputs: seq<Input>)
    requires Word(limit) && !FedAll(NewInbox(limit), inputs).stopped
    ensures var r := FedAll(NewInbox(limit), inputs);
            Faithful(r, FramesIn(inputs), GivenAll(NewInbox(limit), inputs) + r.queue)
  {
    hide OnFrame, Faithful, FramesFrom, InboxOk, Stream;
    if |inputs| == 0 {
      NewFaithful(limit);
    } else {
      var k := |inputs| - 1;
      var r, out := FedAll(NewInbox(limit), inputs[..k]), GivenAll(NewInbox(limit), inputs[..k]);
      StoppedStays(r, inputs[k]);
      ReceivesOnlyStreams(limit, inputs[..k]);
      StepFaithful(r, inputs[k], FramesIn(inputs[..k]), out);
    }
  }

  lemma StoppedStays(r: Inbox, input: Input)
    ensures r.stopped ==> Fed(r, input) == r && Given(r, input) == []
  {
  }

  lemma NewFaithful(limit: nat)
    requires Word(limit)
    ensures Faithful(NewInbox(limit), [], [])
  {
  }

  lemma StepFaithful(r: Inbox, input: Input, frames: seq<Bytes>, out: seq<Bytes>)
    requires Faithful(r, frames, out + r.queue) && !r.stopped && !Fed(r, input).stopped
    ensures var s := Fed(r, input);
            Faithful(s, frames + (if input.Arrived? then [input.frame] else []), out + Given(r, input) + s.queue)
  {
    hide OnFrame, FramesFrom, Stream;
    match input
    case Arrived(frame) =>
      ExtendFaithful(r, frame, frames, out + r.queue);
      var s := OnFrame(r, frame);
      var more := if |s.queue| > |r.queue| then [s.queue[|r.queue|]] else [];
      assert out + r.queue + more == out + [] + s.queue;
    case Take =>
      assert frames + [] == frames;
      if r.queue != [] {
        SizeHead(r.queue);
        assert out + r.queue == out + [r.queue[0]] + r.queue[1..];
      } else {
        assert out + [] == out;
      }
    case Expired =>
      assert frames + [] == frames && out + [] == out;
  }

  // --------------------------------------- what is sent is what is received

  function Arrivals(frames: seq<Bytes>): (r: seq<Input>)
    ensures |r| == |frames| && forall k :: 0 <= k < |r| ==> r[k] == Arrived(frames[k])
  {
    seq(|frames|, k requires 0 <= k < |frames| => Arrived(frames[k]))
  }

  /** A peer ready for message `r.next` of `size` bytes. */
  predicate Ready(r: Inbox, size: nat) {
    InboxOk(r) && !r.stopped && r.partial.None? && Word(r.next) && size <= r.limit && Word(size) && HasRoom(r, size)
  }

  /** The peer with the first `have` bytes of the message in. */
  function Midway(r: Inbox, payload: Bytes, have: nat): (m: Inbox)
    requires have <= |payload|
  {
    if have == 0 then r else r.(partial := Some(payload[..have]), total := |payload|)
  }

  function Delivered(r: Inbox, payload: Bytes): (d: Inbox) {
    r.(queue := r.queue + [payload], queued := r.queued + |payload|, next := r.next + 1)
  }

  /** The rest of a message, taken in from where the peer stands. */
  lemma {:induction false} RestArrives(r: Inbox, payload: Bytes, offset: nat)
    requires Ready(r, |payload|) && offset <= |payload| && (offset == |payload| ==> offset == 0)
    ensures FedAll(Midway(r, payload, offset), Arrivals(FramesFrom(r.next, |payload|, payload, offset))) == Delivered(r, payload)
    decreases |payload| - offset
  {
    var m, total, end := Midway(r, payload, offset), |payload|, Min(offset + FRAME_PAYLOAD, |payload|);
    var first := PackHeader(r.next, total, offset) + payload[offset..end];
    FrameArrives(r, payload, offset, end, first);
    if end == total {
      assert Arrivals([first])[..0] == [];
      assert FedAll(m, Arrivals([first])) == Fed(FedAll(m, []), Arrived(first));
    } else {
      RestArrives(r, payload, end);
      FedFirst(m, first, FramesFrom(r.next, total, payload, end));
    }
  }

  lemma FrameArrives(r: Inbox, payload: Bytes, offset: nat, end: nat, frame: Bytes)
    requires Ready(r, |payload|) && offset <= |payload| && (offset == |payload| ==> offset == 0)
    requires end == Min(offset + FRAME_PAYLOAD, |payload|)
    requires frame == PackHeader(r.next, |payload|, offset) + payload[offset..end]
    ensures OnFrame(Midway(r, payload, offset), frame)
         == if end == |payload| then Delivered(r, payload) else Midway(r, payload, end)
  {
    hide HeaderOf, PackHeader, InboxOk;
    HeaderRead(r.next, |payload|, offset, payload[offset..end]);
    var m := Midway(r, payload, offset);
    assert m.partial.GetOr([]) == payload[..offset];
    assert payload[..offset] + payload[offset..end] == payload[..end];
    assert end == |payload| ==> payload[..end] == payload;
    RestTotal(r);
  }

  lemma RestTotal(r: Inbox)
    requires InboxOk(r) && r.partial.None?
    ensures r.total == 0
  {
  }

  /** Feeding is the same from the front. */
  lemma {:induction false} FedFirst(r: Inbox, frame: Bytes, rest: seq<Bytes>)
    ensures FedAll(r, Arrivals([frame] + rest)) == FedAll(OnFrame(r, frame), Arrivals(rest))
    decreases |rest|
  {
    hide OnFrame;
    var all := Arrivals([frame] + rest);
    if |rest| == 0 {
      assert all[..0] == [];
    } else {
      var k := |rest| - 1;
      FedFirst(r, frame, rest[..k]);
      assert all[..|all| - 1] == Arrivals([frame] + rest[..k]);
      assert Arrivals(rest)[..k] == Arrivals(rest[..k]);
    }
  }

  /** Main result: the frames of a message, fed to a peer with room for it, put exactly that message in its queue. */
  lemma SentIsReceived(r: Inbox, payload: Bytes)
    requires Ready(r, |payload|)
    ensures FedAll(r, Arrivals(Frames(r.next, payload))) == Delivered(r, payload)
  {
    RestArrives(r, payload, 0);
  }

  lemma {:induction false} FedConcat(r: Inbox, a: seq<Input>, b: seq<Input>)
    ensures FedAll(r, a + b) == FedAll(FedAll(r, a), b)
    ensures GivenAll(r, a + b) == GivenAll(r, a) + GivenAll(FedAll(r, a), b)
    decreases |b|
  {
    hide Fed, Given;
    if |b| == 0 {
      assert a + b == a;
    } else {
      FedConcat(r, a, b[..|b| - 1]);
      assert (a + b)[..|a + b| - 1] == a + b[..|b| - 1];
    }
  }

  lemma {:induction false} ArrivalsGiveNothing(r: Inbox, frames: seq<Bytes>)
    ensures GivenAll(r, Arrivals(frames)) == []
  {
    if |frames| > 0 {
      var k := |frames| - 1;
      ArrivalsGiveNothing(r, frames[..k]);
      assert Arrivals(frames)[..k] == Arrivals(frames[..k]);
    }
  }

  /** Messages numbered from `id` on, each read once it has arrived. */
  function Exchange(id: int, messages: seq<Bytes>): (r: seq<Input>)
    requires Sendable(id, messages)
  {
    if |messages| == 0 then []
    else
      var k := |messages| - 1;
      Exchange(id, messages[..k]) + (Arrivals(Frames(id + k, messages[k])) + [Take])
  }

  lemma MessageRead(r: Inbox, payload: Bytes)
    requires Ready(r, |payload|) && r.queue == []
    ensures FedAll(r, Arrivals(Frames(r.next, payload)) + [Take]) == r.(next := r.next + 1)
    ensures GivenAll(r, Arrivals(Frames(r.next, payload)) + [Take]) == [payload]
  {
    hide Frames;
    var a := Arrivals(Frames(r.next, payload));
    SentIsReceived(r, payload);
    ArrivalsGiveNothing(r, Frames(r.next, payload));
    FedConcat(r, a, [Take]);
    var d := Delivered(r, payload);
    assert [Take][..0] == [];
    assert d.queue == [payload] && d.queue[1..] == r.queue;
    assert FedAll(d, [Take]) == Fed(FedAll(d, []), Take) && GivenAll(d, [Take]) == GivenAll(d, []) + Given(FedAll(d, []), Take);
  }

  lemma NothingFed(r: Inbox)
    ensures FedAll(r, []) == r && GivenAll(r, []) == []
  {
  }

  /** Main result: any messages sent one after the other come out as they went in. */
  lemma {:induction false} ExchangeDelivers(limit: nat, messages: seq<Bytes>)
    requires Word(limit) && |messages| <= LAST_ID && forall k :: 0 <= k < |messages| ==> |messages[k]| <= limit
    ensures Sendable(1, messages) && GivenAll(NewInbox(limit), Exchange(1, messages)) == messages
    ensures FedAll(NewInbox(limit), Exchange(1, messages)) == NewInbox(limit).(next := 1 + |messages|)
    decreases |messages|
  {
    hide Frames, FedAll, GivenAll;
    var r0 := NewInbox(limit);
    if |messages| == 0 {
      NothingFed(r0);
    } else {
      var k := |messages| - 1;
      ExchangeDelivers(limit, messages[..k]);
      var r := r0.(next := 1 + k);
      MessageRead(r, messages[k]);
      FedConcat(r0, Exchange(1, messages[..k]), Arrivals(Frames(1 + k, messages[k])) + [Take]);
      assert messages == messages[..k] + [messages[k]];
    }
  }

  // ---------------------------------------------------------- the object

  class DirectPeer {
    const limit: nat
    var queue: seq<Bytes>
    var queued: int
    var partial: Option<Bytes>
    var total: int
    var receiveId: int
    var sendId: int
    var stopped: bool

    function State(): (r: Inbox)
      reads this
    {
      Inbox(limit, queue, queued, partial, total, receiveId, stopped)
    }

    ghost predicate Valid()
      reads this
    {
      InboxOk(State()) && 1 <= sendId <= LAST_ID + 1 && Word(limit)
    }

    constructor (limit: nat)
      requires Word(limit)
      ensures Valid() && State() == NewInbox(limit) && sendId == 1
    {
      this.limit := limit;
      queue, queued, partial, total, receiveId, sendId, stopped := [], 0, None, 0, 1, 1, false;
    }

    method Fail()
      modifies this`queue, this`queued, this`partial, this`total, this`stopped
      ensures State() == Failed(old(State()))
    {
      stopped, partial, total := true, None, 0;
      while queue != []
        invariant stopped && partial == None && total == 0
        decreases |queue|
      {
        queue := queue[1..];
      }
      queued := 0;
    }

    /** `_on_frame`. */
    method Frame(frame: Bytes)
      requires Valid()
      modifies this
      ensures Valid() && State() == OnFrame(old(State()), frame) && sendId == old(sendId)
    {
      hide HeaderOf, InboxOk;
      OnFrameKeeps(State(), frame);
      if stopped {
        return;
      }
      if !(HEADER <= |frame| <= MAX_FRAME) {
        Fail();
        return;
      }
      var h, data := HeaderOf(frame), frame[HEADER..];
      var have := if partial.Some? then |partial.value| else 0;
      if h.magic != MAGIC || h.id != receiveId || h.total > limit || h.offset != have
         || |data| != Min(FRAME_PAYLOAD, h.total - h.offset) || h.offset > h.total
         || (partial.Some? && h.total != total)
      {
        Fail();
        return;
      }
      if partial.None? && (queued + h.total > 2 * limit || |queue| >= QUEUE_MESSAGES) {
        Fail();
        return;
      }
      Extend(h.total, data);
    }

    method Extend(size: int, data: Bytes)
      modifies this`queue, this`queued, this`partial, this`total, this`receiveId
      ensures State() == Extended(old(State()), size, data)
    {
      var got := (if partial.Some? then partial.value else []) + data;
      if |got| == size {
        partial, total := None, 0;
        receiveId, queued, queue := receiveId + 1, queued + size, queue + [got];
      } else {
        partial, total := Some(got), size;
      }
    }

    /** `receive`, when it need not wait. */
    method Receive() returns (payload: Option<Bytes>)
      requires Valid()
      modifies this`queue, this`queued
      ensures Valid() && State() == Fed(old(State()), Take)
      ensures Given(old(State()), Take) == if payload.Some? then [payload.value] else []
    {
      FedKeeps(State(), Take);
      if stopped || queue == [] {
        return None;
      }
      payload := Some(queue[0]);
      queued, queue := queued - |queue[0]|, queue[1..];
    }

    /** `send`: the message's frames under the next number, or a refusal. */
    method Send(payload: Bytes) returns (frames: Option<seq<Bytes>>)
      requires Valid()
      modifies this`sendId
      ensures Valid() && State() == old(State())
      ensures frames.Some? <==> !stopped && |payload| <= limit && old(sendId) <= LAST_ID
      ensures frames.Some? ==> frames.value == Frames(old(sendId), payload) && sendId == old(sendId) + 1
      ensures frames.None? ==> sendId == old(sendId)
    {
      if stopped || |payload| > limit || sendId > LAST_ID {
        return None;
      }
      var sent := SendFrames(sendId, payload);
      sendId := sendId + 1;
      frames := Some(sent);
    }
  }
}
