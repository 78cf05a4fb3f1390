/** What the framing guarantees over a whole connection, for every schedule of partial
    writes and every way the kernel cuts the stream into chunks. */
module Stream {
  import opened Prelude
  import opened Transport

  // ------------------------------------------------------------------ reference reading of a stream

  /** The reference: cut the complete stream at its delimiters, ignoring chunks altogether. */
  datatype Cut = Cut(payloads: seq<Bytes>, tail: Bytes)

  function Split(stream: Bytes): Cut
    decreases |stream|
  {
    match Extract(stream)
    case Partial(_) => Cut([], stream)
    case Complete(data, rest) => var later := Split(rest); Cut([data] + later.payloads, later.tail)
  }

  function Encode(payloads: seq<Bytes>): Bytes {
    if payloads == [] then [] else Delimit(payloads[0]) + Encode(payloads[1..])
  }

  /** The bytes and the descriptors the kernel hands over before it reports an end. */
  function Arrived(inbox: Inbox): Bytes {
    match inbox
    case Quiet => []
    case Blocks(later) => Arrived(later)
    case Reset => []
    case Message(data, _, later) => if data == [] then [] else data + Arrived(later)
  }

  /** The batches of the chunks that have exactly `n` delimiters ahead of them, counted from `base`. */
  function Batch(inbox: Inbox, n: nat, base: nat): seq<int> {
    match inbox
    case Quiet => []
    case Blocks(later) => Batch(later, n, base)
    case Reset => []
    case Message(data, controls, later) =>
      if data == [] then []
      else (if n == base then Rights(controls) else []) + Batch(later, n, base + Nuls(data))
  }

  lemma {:induction false} SplitEncode(payloads: seq<Bytes>, tail: Bytes)
    requires forall p :: p in payloads ==> NUL !in p
    requires NUL !in tail
    ensures Split(Encode(payloads) + tail) == Cut(payloads, tail)
  {
    if payloads == [] {
      assert Encode(payloads) + tail == tail;
    } else {
      var later := Encode(payloads[1..]) + tail;
      assert Encode(payloads) + tail == Delimit(payloads[0]) + later;
      FirstCut(payloads[0], later);
      SplitEncode(payloads[1..], tail);
      assert payloads == [payloads[0]] + payloads[1..];
    }
  }

  /** A buffer's complete frame is also the first frame of any longer stream. */
  lemma SplitHead(buffer: Bytes, data: Bytes, rest: Bytes, more: Bytes)
    requires Extract(buffer) == Complete(data, rest)
    ensures var later := Split(rest + more);
            Split(buffer + more) == Cut([data] + later.payloads, later.tail)
  {
    assert buffer + more == Delimit(data) + (rest + more);
    FirstCut(data, rest + more);
  }

  /** A delimiter-free prefix belongs to the first frame. */
  lemma PrefixInFirstFrame(prefix: Bytes, more: Bytes)
    requires NUL !in prefix
    ensures var e := Extract(prefix + more); e.Complete? ==> |e.data| >= |prefix|
  {
    assert forall k :: 0 <= k < |prefix| ==> (prefix + more)[k] == prefix[k];
    var e := Extract(prefix + more);
    assert e.Complete? ==> (prefix + more)[|e.data|] == NUL;
  }

  lemma {:induction false} BatchShift(inbox: Inbox, n: nat, base: nat)
    ensures Batch(inbox, n + 1, base + 1) == Batch(inbox, n, base)
  {
    match inbox
    case Quiet =>
    case Blocks(later) => BatchShift(later, n, base);
    case Reset =>
    case Message(data, _, later) => BatchShift(later, n, base + Nuls(data));
  }

  lemma {:induction false} BatchPast(inbox: Inbox, n: nat, base: nat)
    requires n < base
    ensures Batch(inbox, n, base) == []
  {
    match inbox
    case Quiet =>
    case Blocks(later) => BatchPast(later, n, base);
    case Reset =>
    case Message(data, _, later) => BatchPast(later, n, base + Nuls(data));
  }

  // ------------------------------------------------------------------ delivery refines the reference

  function Data(frames: seq<Frame>): (payloads: seq<Bytes>)
    ensures |payloads| == |frames|
  {
    seq(|frames|, i requires 0 <= i < |frames| => frames[i].data)
  }

  ghost predicate WithinLimit(payloads: seq<Bytes>) {
    forall p :: p in payloads ==> |p| <= MAX_BUFFER_SIZE
  }

  ghost predicate Refines(d: Delivery, reference: Cut) {
    && Data(d.frames) == reference.payloads
    && d.buffer <= reference.tail
    && (|reference.tail| <= MAX_BUFFER_SIZE ==> d.end != Overflow && d.buffer == reference.tail)
  }

  /** For every chunking the frames are exactly those of the undivided stream, and no payload
      within the limit is ever rejected. */
  lemma {:induction false} DeliverRefinesSplit(buffer: Bytes, inbox: Inbox, fds: seq<int>)
    requires WithinLimit(Split(buffer + Arrived(inbox)).payloads)
    ensures Refines(Deliver(buffer, inbox, fds), Split(buffer + Arrived(inbox)))
    decreases inbox, |buffer|
  {
    var e := Extract(buffer);
    if e.Complete? {
      SplitHead(buffer, e.data, e.rest, Arrived(inbox));
      var later := Split(e.rest + Arrived(inbox));
      assert forall p :: p in later.payloads ==> p in [e.data] + later.payloads;
      DeliverRefinesSplit(e.rest, inbox, []);
      DataCons(Frame(e.data, fds), Deliver(e.rest, inbox, []).frames);
    } else if |buffer| > MAX_BUFFER_SIZE {
      PrefixInFirstFrame(buffer, Arrived(inbox));
      NoFrameBeyondLimit(buffer + Arrived(inbox));
    } else {
      match inbox
      case Blocks(later) => DeliverRefinesSplit(buffer, later, fds);
      case Message(chunk, controls, later) =>
        if chunk == [] {
          assert buffer + Arrived(inbox) == buffer;
        } else {
          assert buffer + Arrived(inbox) == (buffer + chunk) + Arrived(later);
          DeliverRefinesSplit(buffer + chunk, later, fds + Rights(controls));
        }
      case _ => assert buffer + Arrived(inbox) == buffer;
    }
  }

  lemma DataCons(frame: Frame, frames: seq<Frame>)
    ensures Data([frame] + frames) == [frame.data] + Data(frames)
  {
  }

  lemma NoFrameBeyondLimit(stream: Bytes)
    requires WithinLimit(Split(stream).payloads)
    ensures var e := Extract(stream); e.Complete? ==> |e.data| <= MAX_BUFFER_SIZE
  {
    var e := Extract(stream);
    if e.Complete? {
      assert Split(stream).payloads[0] == e.data;
    }
  }

  ghost predicate Placed(frames: seq<Frame>, fds: seq<int>, inbox: Inbox, base: nat) {
    && (|frames| > 0 ==> frames[0].fds == fds + Batch(inbox, 0, base))
    && (forall n :: 1 <= n < |frames| ==> frames[n].fds == Batch(inbox, n, base))
  }

  /** For every chunking, a batch goes to the frame whose number is the count of delimiters in
      the chunks before the one it arrived with. */
  lemma {:induction false} BatchGoesToOpenFrame(buffer: Bytes, inbox: Inbox, fds: seq<int>)
    ensures Placed(Deliver(buffer, inbox, fds).frames, fds, inbox, Nuls(buffer))
    decreases inbox, |buffer|
  {
    var e := Extract(buffer);
    if e.Complete? {
      BatchGoesToOpenFrame(e.rest, inbox, []);
      PlacedFrame(Frame(e.data, fds), Deliver(e.rest, inbox, []).frames, inbox, Nuls(e.rest));
      NulsFrame(buffer, e.data, e.rest);
    } else if |buffer| <= MAX_BUFFER_SIZE {
      match inbox
      case Blocks(later) => BatchGoesToOpenFrame(buffer, later, fds);
      case Message(chunk, controls, later) =>
        if chunk != [] {
          BatchGoesToOpenFrame(buffer + chunk, later, fds + Rights(controls));
          NulsZero(buffer);
          NulsAppend(buffer, chunk);
        }
      case _ =>
    }
  }

  /** The peer is gone: a reset, or an empty read, before the socket falls quiet. */
  predicate HangsUp(inbox: Inbox) {
    match inbox
    case Quiet => false
    case Blocks(later) => HangsUp(later)
    case Reset => true
    case Message(data, _, later) => data == [] || HangsUp(later)
  }

  /** However the bytes are cut: unless the limit is exceeded, receiving ends exactly when the peer
      hangs up, and waits on if it does not. */
  lemma {:induction false} DeliveryEndsWithThePeer(buffer: Bytes, inbox: Inbox, fds: seq<int>)
    ensures var d := Deliver(buffer, inbox, fds); d.end != Overflow ==> d.end == if HangsUp(inbox) then Closed else Suspended
    decreases inbox, |buffer|
  {
    var e := Extract(buffer);
    if e.Complete? {
      DeliveryEndsWithThePeer(e.rest, inbox, []);
    } else if |buffer| <= MAX_BUFFER_SIZE {
      match inbox
      case Blocks(later) => DeliveryEndsWithThePeer(buffer, later, fds);
      case Message(chunk, controls, later) =>
        if chunk != [] { DeliveryEndsWithThePeer(buffer + chunk, later, fds + Rights(controls)); }
      case _ =>
    }
  }

  /** The descriptors left over are those of the frame that has not been completed. */
  ghost predicate LeftOver(d: Delivery, fds: seq<int>, inbox: Inbox, base: nat) {
    d.end != Overflow ==> d.fds == (if d.frames == [] then fds else []) + Batch(inbox, |d.frames|, base)
  }

  lemma LeftOverBehindFrame(d: Delivery, frame: Frame, fds: seq<int>, inbox: Inbox, base: nat)
    requires LeftOver(d, [], inbox, base)
    ensures LeftOver(d.(frames := [frame] + d.frames), fds, inbox, base + 1)
  {
    BatchShift(inbox, |d.frames|, base);
  }

  lemma LeftOverOfChunk(d: Delivery, fds: seq<int>, data: Bytes, controls: seq<Control>, later: Inbox)
    requires data != [] && LeftOver(d, fds + Rights(controls), later, Nuls(data))
    ensures LeftOver(d, fds, Message(data, controls, later), 0)
  {
    var n := |d.frames|;
    var batch := Batch(later, n, Nuls(data));
    assert Batch(Message(data, controls, later), n, 0) == (if n == 0 then Rights(controls) else []) + batch;
    assert fds + Rights(controls) + batch == fds + (Rights(controls) + batch);
    assert [] + batch == batch == [] + ([] + batch);
  }

  lemma DeliverMore(buffer: Bytes, data: Bytes, controls: seq<Control>, later: Inbox, fds: seq<int>)
    requires NUL !in buffer && |buffer| <= MAX_BUFFER_SIZE && data != []
    ensures Deliver(buffer, Message(data, controls, later), fds) == Deliver(buffer + data, later, fds + Rights(controls))
    ensures Nuls(buffer) == 0 && Nuls(buffer + data) == Nuls(data)
  {
    NulsZero(buffer);
    NulsAppend(buffer, data);
  }

  lemma DeliverNext(buffer: Bytes, data: Bytes, rest: Bytes, inbox: Inbox, fds: seq<int>)
    requires Extract(buffer) == Complete(data, rest)
    ensures var later := Deliver(rest, inbox, []); Deliver(buffer, inbox, fds) == later.(frames := [Frame(data, fds)] + later.frames)
    ensures Nuls(buffer) == 1 + Nuls(rest)
  {
    NulsFrame(buffer, data, rest);
  }

  lemma LeftOverAtEnd(buffer: Bytes, inbox: Inbox, fds: seq<int>)
    requires NUL !in buffer && !inbox.Blocks? && (inbox.Message? ==> inbox.data == [])
    ensures LeftOver(Deliver(buffer, inbox, fds), fds, inbox, 0)
  {
    assert fds + [] == fds;
  }

  lemma {:induction false} LeftOverIsTheOpenFrames(buffer: Bytes, inbox: Inbox, fds: seq<int>)
    ensures LeftOver(Deliver(buffer, inbox, fds), fds, inbox, Nuls(buffer))
    decreases inbox, |buffer|, 1
  {
    var e := Extract(buffer);
    if e.Complete? {
      LeftOverIsTheOpenFrames(e.rest, inbox, []);
      DeliverNext(buffer, e.data, e.rest, inbox, fds);
      LeftOverBehindFrame(Deliver(e.rest, inbox, []), Frame(e.data, fds), fds, inbox, Nuls(e.rest));
    } else {
      NulsZero(buffer);
      LeftOverOfPartial(buffer, inbox, fds);
    }
  }

  lemma {:induction false} LeftOverOfPartial(buffer: Bytes, inbox: Inbox, fds: seq<int>)
    requires NUL !in buffer
    ensures LeftOver(Deliver(buffer, inbox, fds), fds, inbox, 0)
    decreases inbox, |buffer|, 0
  {
    if inbox.Blocks? {
      LeftOverOfPartial(buffer, inbox.later, fds);
    } else if inbox.Message? && inbox.data != [] && |buffer| <= MAX_BUFFER_SIZE {
      var fds' := fds + Rights(inbox.controls);
      LeftOverIsTheOpenFrames(buffer + inbox.data, inbox.later, fds');
      DeliverMore(buffer, inbox.data, inbox.controls, inbox.later, fds);
      LeftOverOfChunk(Deliver(buffer + inbox.data, inbox.later, fds'), fds, inbox.data, inbox.controls, inbox.later);
    } else if |buffer| <= MAX_BUFFER_SIZE {
      LeftOverAtEnd(buffer, inbox, fds);
    }
  }

  lemma NulsFrame(buffer: Bytes, data: Bytes, rest: Bytes)
    requires Extract(buffer) == Complete(data, rest)
    ensures Nuls(buffer) == 1 + Nuls(rest)
  {
    NulsZero(data);
    NulsAppend(data, [NUL]);
    NulsAppend(Delimit(data), rest);
  }

  lemma PlacedFrame(frame: Frame, later: seq<Frame>, inbox: Inbox, base: nat)
    requires Placed(later, [], inbox, base)
    ensures Placed([frame] + later, frame.fds, inbox, base + 1)
  {
    BatchPast(inbox, 0, base + 1);
    assert frame.fds + [] == frame.fds;
    assert [] + Batch(inbox, 0, base) == Batch(inbox, 0, base);
    forall n | 1 <= n < 1 + |later|
      ensures ([frame] + later)[n].fds == Batch(inbox, n, base + 1)
    {
      assert ([frame] + later)[n] == later[n - 1];
      BatchShift(inbox, n - 1, base);
    }
  }

  /** Round trip: whatever the chunks, the receiver reads back the payloads sent, in order, and
      keeps a delimiter-free prefix of the next one. */
  lemma StreamRoundTrip(payloads: seq<Bytes>, next: Bytes, inbox: Inbox)
    requires WithinLimit(payloads) && forall p :: p in payloads ==> NUL !in p
    requires NUL !in next
    requires Arrived(inbox) == Encode(payloads) + next
    ensures Refines(Deliver([], inbox, []), Cut(payloads, next))
  {
    SplitEncode(payloads, next);
    assert [] + Arrived(inbox) == Arrived(inbox);
    DeliverRefinesSplit([], inbox, []);
  }

  // ------------------------------------------------------------------ buffer bound

  predicate ShortReads(inbox: Inbox) {
    match inbox
    case Blocks(later) => ShortReads(later)
    case Message(data, _, later) => |data| <= READ_SIZE && ShortReads(later)
    case _ => true
  }

  /** All but the last read of the buffer is delimiter-free and within the limit. */
  ghost predicate OneReadPast(buffer: Bytes, k: nat) {
    k <= MAX_BUFFER_SIZE && k <= |buffer| <= k + READ_SIZE && NUL !in buffer[..k]
  }

  lemma FirstFramePastPrefix(buffer: Bytes, k: nat)
    requires OneReadPast(buffer, k) && NUL in buffer
    ensures k <= |Extract(buffer).data| <= MAX_BUFFER_SIZE + READ_SIZE - 1
    ensures OneReadPast(Extract(buffer).rest, 0)
  {
    assert buffer == buffer[..k] + buffer[k..];
    PrefixInFirstFrame(buffer[..k], buffer[k..]);
  }

  lemma OneReadMore(buffer: Bytes, chunk: Bytes)
    requires NUL !in buffer && |buffer| <= MAX_BUFFER_SIZE && |chunk| <= READ_SIZE
    ensures OneReadPast(buffer + chunk, |buffer|)
  {
    assert (buffer + chunk)[..|buffer|] == buffer;
  }

  lemma {:induction false} PeakIsBounded(buffer: Bytes, k: nat, inbox: Inbox)
    requires OneReadPast(buffer, k) && ShortReads(inbox)
    ensures Peak(buffer, inbox) <= MAX_BUFFER_SIZE + READ_SIZE
    decreases inbox, |buffer|
  {
    var e := Extract(buffer);
    if e.Complete? {
      FirstFramePastPrefix(buffer, k);
      PeakIsBounded(e.rest, 0, inbox);
    } else if |buffer| <= MAX_BUFFER_SIZE {
      match inbox
      case Blocks(later) => PeakIsBounded(buffer, k, later);
      case Message(chunk, _, later) =>
        if chunk != [] {
          OneReadMore(buffer, chunk);
          PeakIsBounded(buffer + chunk, |buffer|, later);
        }
      case _ =>
    }
  }

  ghost predicate ShortFrames(frames: seq<Frame>) {
    forall f :: f in frames ==> |f.data| <= MAX_BUFFER_SIZE + READ_SIZE - 1
  }

  lemma {:induction false} FramesAreShort(buffer: Bytes, k: nat, inbox: Inbox, fds: seq<int>)
    requires OneReadPast(buffer, k) && ShortReads(inbox)
    ensures ShortFrames(Deliver(buffer, inbox, fds).frames)
    decreases inbox, |buffer|
  {
    var e := Extract(buffer);
    if e.Complete? {
      FirstFramePastPrefix(buffer, k);
      FramesAreShort(e.rest, 0, inbox, []);
    } else if |buffer| <= MAX_BUFFER_SIZE {
      match inbox
      case Blocks(later) => FramesAreShort(buffer, k, later, fds);
      case Message(chunk, controls, later) =>
        if chunk != [] {
          OneReadMore(buffer, chunk);
          FramesAreShort(buffer + chunk, |buffer|, later, fds + Rights(controls));
        }
      case _ =>
    }
  }

  lemma {:induction false} OverflowIsPastLimit(buffer: Bytes, inbox: Inbox, fds: seq<int>)
    ensures var d := Deliver(buffer, inbox, fds); d.end == Overflow <==> |d.buffer| > MAX_BUFFER_SIZE
    decreases inbox, |buffer|
  {
    var e := Extract(buffer);
    if e.Complete? {
      OverflowIsPastLimit(e.rest, inbox, []);
    } else if |buffer| <= MAX_BUFFER_SIZE {
      match inbox
      case Blocks(later) => OverflowIsPastLimit(buffer, later, fds);
      case Message(chunk, controls, later) =>
        if chunk != [] { OverflowIsPastLimit(buffer + chunk, later, fds + Rights(controls)); }
      case _ =>
    }
  }

  /** Memory is bounded over any run, and what exceeds the limit by a read is never accepted. */
  lemma BufferStaysBounded(buffer: Bytes, k: nat, inbox: Inbox, fds: seq<int>)
    requires OneReadPast(buffer, k) && ShortReads(inbox)
    ensures Peak(buffer, inbox) <= MAX_BUFFER_SIZE + READ_SIZE
    ensures forall f :: f in Deliver(buffer, inbox, fds).frames ==> |f.data| <= MAX_BUFFER_SIZE + READ_SIZE - 1
    ensures var d := Deliver(buffer, inbox, fds); d.end == Overflow <==> |d.buffer| > MAX_BUFFER_SIZE
  {
    PeakIsBounded(buffer, k, inbox);
    FramesAreShort(buffer, k, inbox, fds);
    OverflowIsPastLimit(buffer, inbox, fds);
  }

  // ------------------------------------------------------------------ whose descriptors are they

  function Flat(cuts: seq<seq<Cell>>): seq<Cell> {
    if cuts == [] then [] else cuts[0] + Flat(cuts[1..])
  }

  /** The kernel answers with the non-empty chunks of `cuts`, blocking in between as it likes;
      each chunk brings the batches attached to its own bytes. */
  ghost predicate Arrives(inbox: Inbox, cuts: seq<seq<Cell>>) {
    match inbox
    case Quiet => cuts == []
    case Blocks(later) => Arrives(later, cuts)
    case Reset => false
    case Message(data, controls, later) =>
      cuts != [] && Answers(data, controls, cuts[0]) && Arrives(later, cuts[1..])
  }

  ghost predicate Answers(data: Bytes, controls: seq<Control>, chunk: seq<Cell>) {
    chunk != [] && data == BytesOf(chunk) && Carries(controls, FdsOf(chunk))
  }

  function NulAt(cell: Cell): nat {
    if cell.byte == NUL then 1 else 0
  }

  function NulCells(cells: seq<Cell>): nat {
    if cells == [] then 0 else NulAt(cells[0]) + NulCells(cells[1..])
  }

  /** The descriptors of the cells that have exactly `n` delimiters before them. */
  function Own(cells: seq<Cell>, n: nat, base: nat): seq<int> {
    if cells == [] then []
    else (if n == base then cells[0].fds else []) + Own(cells[1..], n, base + NulAt(cells[0]))
  }

  /** The descriptors of the chunks that have exactly `n` delimiters before them. */
  function BatchOfCuts(cuts: seq<seq<Cell>>, n: nat, base: nat): seq<int> {
    if cuts == [] then []
    else (if n == base then FdsOf(cuts[0]) else []) + BatchOfCuts(cuts[1..], n, base + NulCells(cuts[0]))
  }

  /** No descriptor-bearing byte has a delimiter ahead of it in its own chunk. */
  ghost predicate AlignedChunk(cells: seq<Cell>) {
    forall i :: 0 <= i < |cells| && cells[i].fds != [] ==> NulCells(cells[..i]) == 0
  }

  ghost predicate Aligned(cuts: seq<seq<Cell>>) {
    forall chunk :: chunk in cuts ==> AlignedChunk(chunk)
  }

  // Concatenation laws.

  lemma BytesOfAppend(a: seq<Cell>, b: seq<Cell>)
    ensures BytesOf(a + b) == BytesOf(a) + BytesOf(b)
  {
  }

  lemma {:induction false} NulCellsAppend(a: seq<Cell>, b: seq<Cell>)
    ensures NulCells(a + b) == NulCells(a) + NulCells(b)
  {
    if a == [] {
      assert a + b == b;
    } else {
      assert (a + b)[1..] == a[1..] + b;
      NulCellsAppend(a[1..], b);
    }
  }

  lemma {:induction false} NulCellsMeans(cells: seq<Cell>)
    ensures NulCells(cells) == Nuls(BytesOf(cells))
  {
    if cells != [] {
      assert BytesOf(cells)[1..] == BytesOf(cells[1..]);
      NulCellsMeans(cells[1..]);
    }
  }

  lemma {:induction false} OwnAppend(a: seq<Cell>, b: seq<Cell>, n: nat, base: nat)
    ensures Own(a + b, n, base) == Own(a, n, base) + Own(b, n, base + NulCells(a))
  {
    if a == [] {
      assert a + b == b;
    } else {
      assert (a + b)[1..] == a[1..] + b;
      OwnAppend(a[1..], b, n, base + NulAt(a[0]));
    }
  }

  /** What arrives, in terms of the cut wire. */
  lemma {:induction false} ArrivedIsFlat(inbox: Inbox, cuts: seq<seq<Cell>>)
    requires Arrives(inbox, cuts)
    ensures Arrived(inbox) == BytesOf(Flat(cuts))
  {
    match inbox
    case Quiet =>
    case Blocks(later) => ArrivedIsFlat(later, cuts);
    case Message(_, _, later) =>
      ArrivedIsFlat(later, cuts[1..]);
      BytesOfAppend(cuts[0], Flat(cuts[1..]));
  }

  lemma {:induction false} BatchIsOfCuts(inbox: Inbox, cuts: seq<seq<Cell>>, n: nat, base: nat)
    requires Arrives(inbox, cuts)
    ensures Batch(inbox, n, base) == BatchOfCuts(cuts, n, base)
  {
    match inbox
    case Quiet =>
    case Blocks(later) => BatchIsOfCuts(later, cuts, n, base);
    case Message(_, controls, later) =>
      RightsIffCarried(controls, FdsOf(cuts[0]));
      NulCellsMeans(cuts[0]);
      BatchIsOfCuts(later, cuts[1..], n, base + NulCells(cuts[0]));
  }

  // Aligned chunks: every batch belongs to the frame that is open when its chunk starts.

  lemma {:induction false} PlainCells(cells: seq<Cell>, n: nat, base: nat)
    requires forall c :: c in cells ==> c.fds == []
    ensures Own(cells, n, base) == [] && FdsOf(cells) == []
  {
    if cells != [] {
      PlainCells(cells[1..], n, base + NulAt(cells[0]));
    }
  }

  lemma AlignedTail(cells: seq<Cell>)
    requires cells != [] && AlignedChunk(cells)
    ensures cells[0].byte == NUL ==> forall c :: c in cells[1..] ==> c.fds == []
    ensures cells[0].byte != NUL ==> AlignedChunk(cells[1..])
  {
    var rest := cells[1..];
    forall i | 0 <= i < |rest| && rest[i].fds != []
      ensures NulAt(cells[0]) + NulCells(rest[..i]) == 0
    {
      assert cells[i + 1] == rest[i];
      assert cells[..i + 1][1..] == rest[..i];
    }
  }

  lemma {:induction false} OwnOfAlignedChunk(cells: seq<Cell>, n: nat, base: nat)
    requires AlignedChunk(cells)
    ensures Own(cells, n, base) == if n == base then FdsOf(cells) else []
  {
    if cells != [] {
      AlignedTail(cells);
      if cells[0].byte == NUL {
        PlainCells(cells[1..], n, base + 1);
      } else {
        OwnOfAlignedChunk(cells[1..], n, base);
      }
    }
  }

  lemma {:induction false} OwnOfAligned(cuts: seq<seq<Cell>>, n: nat, base: nat)
    requires Aligned(cuts)
    ensures BatchOfCuts(cuts, n, base) == Own(Flat(cuts), n, base)
  {
    if cuts != [] {
      OwnOfAlignedChunk(cuts[0], n, base);
      OwnAppend(cuts[0], Flat(cuts[1..]), n, base);
      OwnOfAligned(cuts[1..], n, base + NulCells(cuts[0]));
    }
  }

  // The wire: its bytes are the encoded payloads and every frame owns its own descriptors.

  lemma {:induction false} OwnOfWire(frames: seq<Frame>, partial: seq<Cell>, n: nat, base: nat)
    requires forall f :: f in frames ==> NUL !in f.data
    requires base <= n < base + |frames|
    ensures Own(Wire(frames) + partial, n, base) == frames[n - base].fds
  {
    var head, later := FrameCells(frames[0]), Wire(frames[1..]) + partial;
    assert Wire(frames) + partial == head + later;
    OwnOfFrame(frames[0], n, base);
    OwnAppend(head, later, n, base);
    if n == base {
      OwnPast(later, n, base + 1);
    } else {
      OwnOfWire(frames[1..], partial, n, base + 1);
    }
  }

  lemma OwnOfFrame(frame: Frame, n: nat, base: nat)
    requires NUL !in frame.data
    ensures Own(FrameCells(frame), n, base) == if n == base then frame.fds else []
    ensures NulCells(FrameCells(frame)) == 1
  {
    var cells := FrameCells(frame);
    OwnOfAlignedChunk(cells, n, base);
    PlainCells(cells[1..], n, base);
    BytesOfFrame(frame);
    NulCellsMeans(cells);
    NulsZero(frame.data);
    NulsAppend(frame.data, [NUL]);
  }

  lemma BytesOfFrame(frame: Frame)
    ensures BytesOf(FrameCells(frame)) == Delimit(frame.data)
  {
  }

  lemma {:induction false} OwnPast(cells: seq<Cell>, n: nat, base: nat)
    requires n < base
    ensures Own(cells, n, base) == []
  {
    if cells != [] {
      OwnPast(cells[1..], n, base + NulAt(cells[0]));
    }
  }

  lemma {:induction false} BytesOfWire(frames: seq<Frame>)
    ensures BytesOf(Wire(frames)) == Encode(Data(frames))
  {
    if frames != [] {
      BytesOfWire(frames[1..]);
      BytesOfFrame(frames[0]);
      BytesOfAppend(FrameCells(frames[0]), Wire(frames[1..]));
      DataCons(frames[0], frames[1..]);
      assert frames == [frames[0]] + frames[1..];
    }
  }

  lemma {:induction false} NulCellsOfWire(frames: seq<Frame>)
    requires forall f :: f in frames ==> NUL !in f.data
    ensures NulCells(Wire(frames)) == |frames|
  {
    if frames != [] {
      NulCellsOfWire(frames[1..]);
      OwnOfFrame(frames[0], 0, 0);
      NulCellsAppend(FrameCells(frames[0]), Wire(frames[1..]));
    }
  }

  // Counting the descriptors that go to the frames numbered up to `k`, once by the chunk
  // they arrive with and once by the byte they are attached to. The two counts differ as
  // soon as one chunk is misaligned.

  function ByChunk(cuts: seq<seq<Cell>>, k: int, base: nat): nat {
    if cuts == [] then 0
    else (if base <= k then |FdsOf(cuts[0])| else 0) + ByChunk(cuts[1..], k, base + NulCells(cuts[0]))
  }

  function ByCell(cells: seq<Cell>, k: int, base: nat): nat {
    if cells == [] then 0
    else (if base <= k then |cells[0].fds| else 0) + ByCell(cells[1..], k, base + NulAt(cells[0]))
  }

  lemma {:induction false} ByChunkStep(cuts: seq<seq<Cell>>, n: nat, base: nat)
    ensures ByChunk(cuts, n, base) == ByChunk(cuts, n - 1, base) + |BatchOfCuts(cuts, n, base)|
  {
    if cuts != [] {
      ByChunkStep(cuts[1..], n, base + NulCells(cuts[0]));
    }
  }

  lemma {:induction false} ByCellStep(cells: seq<Cell>, n: nat, base: nat)
    ensures ByCell(cells, n, base) == ByCell(cells, n - 1, base) + |Own(cells, n, base)|
  {
    if cells != [] {
      ByCellStep(cells[1..], n, base + NulAt(cells[0]));
    }
  }

  lemma {:induction false} ByCellAppend(a: seq<Cell>, b: seq<Cell>, k: int, base: nat)
    ensures ByCell(a + b, k, base) == ByCell(a, k, base) + ByCell(b, k, base + NulCells(a))
  {
    if a == [] {
      assert a + b == b;
    } else {
      assert (a + b)[1..] == a[1..] + b;
      ByCellAppend(a[1..], b, k, base + NulAt(a[0]));
    }
  }

  lemma {:induction false} ByCellWithinChunk(cells: seq<Cell>, k: int, base: nat)
    ensures ByCell(cells, k, base) <= if base <= k then |FdsOf(cells)| else 0
  {
    if cells != [] {
      ByCellWithinChunk(cells[1..], k, base + NulAt(cells[0]));
    }
  }

  lemma {:induction false} ByCellWithinCuts(cuts: seq<seq<Cell>>, k: int, base: nat)
    ensures ByCell(Flat(cuts), k, base) <= ByChunk(cuts, k, base)
  {
    if cuts != [] {
      ByCellAppend(cuts[0], Flat(cuts[1..]), k, base);
      ByCellWithinChunk(cuts[0], k, base);
      ByCellWithinCuts(cuts[1..], k, base + NulCells(cuts[0]));
    }
  }

  lemma {:induction false} MisalignedChunkLoses(cells: seq<Cell>, i: nat, base: nat)
    requires i < |cells| && cells[i].fds != [] && NulCells(cells[..i]) > 0
    ensures ByCell(cells, base, base) < |FdsOf(cells)| && NulCells(cells) > 0
  {
    assert cells[..i][1..] == cells[1..][..i - 1];
    if cells[0].byte == NUL {
      ByCellWithinChunk(cells[1..], base, base + 1);
      FdsPresent(cells[1..], i - 1);
    } else {
      MisalignedChunkLoses(cells[1..], i - 1, base);
    }
  }

  lemma {:induction false} FdsPresent(cells: seq<Cell>, i: nat)
    requires i < |cells| && cells[i].fds != []
    ensures FdsOf(cells) != []
  {
    if i > 0 {
      FdsPresent(cells[1..], i - 1);
    }
  }

  lemma {:induction false} MisalignedCutsLose(cuts: seq<seq<Cell>>, base: nat) returns (k: nat)
    requires !Aligned(cuts)
    ensures base <= k < base + NulCells(Flat(cuts))
    ensures ByCell(Flat(cuts), k, base) < ByChunk(cuts, k, base)
  {
    var head, next := cuts[0], base + NulCells(cuts[0]);
    if AlignedChunk(head) {
      assert cuts == [head] + cuts[1..];
      k := MisalignedCutsLose(cuts[1..], next);
      ByCellWithinChunk(head, k, base);
    } else {
      k := base;
      var i :| 0 <= i < |head| && head[i].fds != [] && NulCells(head[..i]) > 0;
      MisalignedChunkLoses(head, i, base);
      ByCellWithinCuts(cuts[1..], k, next);
    }
    NulCellsAppend(head, Flat(cuts[1..]));
    ByCellAppend(head, Flat(cuts[1..]), k, base);
  }

  lemma {:induction false} ZeroBelowBase(cuts: seq<seq<Cell>>, cells: seq<Cell>, k: int, base: nat)
    requires k < base
    ensures ByChunk(cuts, k, base) == 0 && ByCell(cells, k, base) == 0
    decreases |cuts| + |cells|
  {
    if cuts != [] {
      ZeroBelowBase(cuts[1..], [], k, base + NulCells(cuts[0]));
    }
    if cells != [] {
      ZeroBelowBase([], cells[1..], k, base + NulAt(cells[0]));
    }
  }

  lemma {:induction false} EqualBatchesEqualCounts(cuts: seq<seq<Cell>>, k: int)
    requires -1 <= k
    requires forall n: nat :: n <= k ==> BatchOfCuts(cuts, n, 0) == Own(Flat(cuts), n, 0)
    ensures ByChunk(cuts, k, 0) == ByCell(Flat(cuts), k, 0)
    decreases k + 1
  {
    if k == -1 {
      ZeroBelowBase(cuts, Flat(cuts), k, 0);
    } else {
      EqualBatchesEqualCounts(cuts, k - 1);
      ByChunkStep(cuts, k, 0);
      ByCellStep(Flat(cuts), k, 0);
    }
  }

  lemma AlignedIfOwn(cuts: seq<seq<Cell>>)
    requires forall n: nat :: n < NulCells(Flat(cuts)) ==> BatchOfCuts(cuts, n, 0) == Own(Flat(cuts), n, 0)
    ensures Aligned(cuts)
  {
    if !Aligned(cuts) {
      var k := MisalignedCutsLose(cuts, 0);
      EqualBatchesEqualCounts(cuts, k);
      assert false;
    }
  }

  // ------------------------------------------------------------------ end to end

  ghost predicate Sendable(frames: seq<Frame>) {
    forall f :: f in frames ==> NUL !in f.data && |f.data| <= MAX_BUFFER_SIZE
  }

  /** Frames sent one after the other, plus a delimiter-free part of the next one, cut in any way. */
  ghost predicate SentAs(frames: seq<Frame>, partial: seq<Cell>, cuts: seq<seq<Cell>>) {
    Sendable(frames) && NUL !in BytesOf(partial) && Flat(cuts) == Wire(frames) + partial
  }

  /** The receiver gets every payload, in order, for every chunking. */
  lemma PayloadsArrive(frames: seq<Frame>, partial: seq<Cell>, cuts: seq<seq<Cell>>, inbox: Inbox)
    requires SentAs(frames, partial, cuts) && Arrives(inbox, cuts)
    ensures Refines(Deliver([], inbox, []), Cut(Data(frames), BytesOf(partial)))
  {
    ArrivedIsFlat(inbox, cuts);
    BytesOfAppend(Wire(frames), partial);
    BytesOfWire(frames);
    StreamRoundTrip(Data(frames), BytesOf(partial), inbox);
  }

  /** One direction of a connection: the receiver gets exactly the frames sent, descriptors
      included, if and only if no chunk holds an earlier frame's delimiter ahead of a
      descriptor-bearing byte. */
  lemma FramesArriveIffAligned(frames: seq<Frame>, partial: seq<Cell>, cuts: seq<seq<Cell>>, inbox: Inbox)
    requires SentAs(frames, partial, cuts) && Arrives(inbox, cuts)
    ensures Deliver([], inbox, []).frames == frames <==> Aligned(cuts)
  {
    var got := Deliver([], inbox, []).frames;
    PayloadsArrive(frames, partial, cuts, inbox);
    BatchGoesToOpenFrame([], inbox, []);
    assert |got| == |Data(got)| == |frames|;
    if Aligned(cuts) {
      forall n | 0 <= n < |frames| ensures got[n] == frames[n] {
        assert Data(got)[n] == Data(frames)[n];
        assert got[n].fds == Batch(inbox, n, 0);
        BatchIsOfCuts(inbox, cuts, n, 0);
        OwnOfAligned(cuts, n, 0);
        OwnOfWire(frames, partial, n, 0);
      }
    }
    if got == frames {
      NulCellsOfWire(frames);
      NulCellsAppend(Wire(frames), partial);
      NulCellsMeans(partial);
      NulsZero(BytesOf(partial));
      forall n: nat | n < |frames| ensures BatchOfCuts(cuts, n, 0) == Own(Flat(cuts), n, 0) {
        assert got[n].fds == Batch(inbox, n, 0);
        BatchIsOfCuts(inbox, cuts, n, 0);
        OwnOfWire(frames, partial, n, 0);
      }
      AlignedIfOwn(cuts);
    }
  }

  // ------------------------------------------------------------------ one sender at a time

  /** How many of the frames are sent completely, when each send waits for the one before. */
  function Finished(frames: seq<Frame>, schedules: seq<seq<SendOutcome>>): (k: nat)
    requires |schedules| == |frames|
    ensures k <= |frames|
    decreases |frames|
  {
    if frames == [] || Taken(frames[0], schedules[0]) < |FrameCells(frames[0])| then 0
    else 1 + Finished(frames[1..], schedules[1..])
  }

  /** What the kernel has taken of them. */
  function Outbox(frames: seq<Frame>, schedules: seq<seq<SendOutcome>>): seq<Cell>
    requires |schedules| == |frames|
    decreases |frames|
  {
    if frames == [] then []
    else if Taken(frames[0], schedules[0]) < |FrameCells(frames[0])| then FrameCells(frames[0])[..Taken(frames[0], schedules[0])]
    else FrameCells(frames[0]) + Outbox(frames[1..], schedules[1..])
  }

  /** And of the frame under way. */
  function UnderWay(frames: seq<Frame>, schedules: seq<seq<SendOutcome>>): seq<Cell>
    requires |schedules| == |frames|
  {
    var k := Finished(frames, schedules);
    if k == |frames| then [] else FrameCells(frames[k])[..Taken(frames[k], schedules[k])]
  }

  /** A list of `SendFrame` calls, each begun when the one before has returned; one that never
      returns is the last. */
  method SendInTurn(c: Connection, frames: seq<Frame>, schedules: seq<seq<SendOutcome>>) returns (k: nat)
    requires |schedules| == |frames|
    modifies c`outbox
    ensures k == Finished(frames, schedules)
    ensures c.outbox == old(c.outbox) + Outbox(frames, schedules)
  {
    k := 0;
    while k < |frames|
      invariant k <= |frames|
      invariant Finished(frames, schedules) == k + Finished(frames[k..], schedules[k..])
      invariant old(c.outbox) + Outbox(frames, schedules) == c.outbox + Outbox(frames[k..], schedules[k..])
    {
      var done, taken := c.SendFrame(frames[k], schedules[k]);
      if !done {
        return;
      }
      assert frames[k..][1..] == frames[k + 1..] && schedules[k..][1..] == schedules[k + 1..];
      assert FrameCells(frames[k])[..taken] == FrameCells(frames[k]);
      k := k + 1;
    }
    assert Outbox(frames[k..], schedules[k..]) == [];
  }

  lemma {:induction false} OutboxIsWire(frames: seq<Frame>, schedules: seq<seq<SendOutcome>>)
    requires |schedules| == |frames|
    ensures Outbox(frames, schedules) == Wire(frames[..Finished(frames, schedules)]) + UnderWay(frames, schedules)
    decreases |frames|
  {
    var k := Finished(frames, schedules);
    if k == 0 {
      assert frames[..0] == [];
    } else {
      OutboxIsWire(frames[1..], schedules[1..]);
      assert frames[..k][1..] == frames[1..][..k - 1];
      assert UnderWay(frames, schedules) == UnderWay(frames[1..], schedules[1..]);
    }
  }

  lemma UnderWayIsPartial(frames: seq<Frame>, schedules: seq<seq<SendOutcome>>)
    requires |schedules| == |frames| && Sendable(frames)
    ensures NUL !in BytesOf(UnderWay(frames, schedules))
  {
    var k := Finished(frames, schedules);
    if k < |frames| {
      StopsShort(frames, schedules);
      var cells, partial := FrameCells(frames[k]), UnderWay(frames, schedules);
      assert frames[k] in frames;
      forall i | 0 <= i < |partial| ensures BytesOf(partial)[i] != NUL {
        assert cells[i].byte == frames[k].data[i];
      }
    }
  }

  lemma {:induction false} StopsShort(frames: seq<Frame>, schedules: seq<seq<SendOutcome>>)
    requires |schedules| == |frames| && Finished(frames, schedules) < |frames|
    ensures var k := Finished(frames, schedules); Taken(frames[k], schedules[k]) < |FrameCells(frames[k])|
    decreases |frames|
  {
    if Taken(frames[0], schedules[0]) == |FrameCells(frames[0])| {
      StopsShort(frames[1..], schedules[1..]);
    }
  }

  /** End to end, for frames sent in turn under any schedules of partial writes, and any way of
      cutting the wire into reads: the receiver gets exactly the payloads of the frames whose send
      has returned, in order, and keeps what it has of the next one; and the frames come with
      precisely their own descriptors if and only if the reads are aligned. */
  lemma SerialSendsArrive(frames: seq<Frame>, schedules: seq<seq<SendOutcome>>, cuts: seq<seq<Cell>>, inbox: Inbox)
    requires |schedules| == |frames| && Sendable(frames)
    requires Flat(cuts) == Outbox(frames, schedules) && Arrives(inbox, cuts)
    ensures var sent := frames[..Finished(frames, schedules)];
      && Refines(Deliver([], inbox, []), Cut(Data(sent), BytesOf(UnderWay(frames, schedules))))
      && (Deliver([], inbox, []).frames == sent <==> Aligned(cuts))
  {
    OutboxIsWire(frames, schedules);
    UnderWayIsPartial(frames, schedules);
    PayloadsArrive(frames[..Finished(frames, schedules)], UnderWay(frames, schedules), cuts, inbox);
    FramesArriveIffAligned(frames[..Finished(frames, schedules)], UnderWay(frames, schedules), cuts, inbox);
  }
}
