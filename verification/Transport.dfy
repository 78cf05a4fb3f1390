/** Byte framing over a Unix stream socket (`transport.py`): NUL-delimited frames,
    partial writes, arbitrary read chunks, and descriptors that ride beside the bytes. */
module Transport {
  import opened Prelude

  newtype Byte = x: int | 0 <= x < 256

  type Bytes = seq<Byte>

  const NUL: Byte := 0
  const MAX_BUFFER_SIZE: nat := 16 * 1024 * 1024
  const READ_SIZE: nat := 4096

  datatype Frame = Frame(data: Bytes, fds: seq<int>)

  // ------------------------------------------------------------------ framing

  function Delimit(data: Bytes): Bytes {
    data + [NUL]
  }

  function FirstNul(buffer: Bytes): (i: nat)
    requires NUL in buffer
    ensures i < |buffer| && buffer[i] == NUL && NUL !in buffer[..i]
  {
    if buffer[0] == NUL then 0 else
      assert buffer == [buffer[0]] + buffer[1..];
      var i := FirstNul(buffer[1..]);
      assert buffer[..i + 1] == [buffer[0]] + buffer[1..][..i];
      i + 1
  }

  /** `extract` is the inverse of `delimit` on the first frame of a buffer, and the identity
      on a buffer that holds no complete frame. */
  datatype Extracted = Partial(rest: Bytes) | Complete(data: Bytes, rest: Bytes)

  function Extract(buffer: Bytes): (r: Extracted)
    ensures r.Partial? <==> NUL !in buffer
    ensures r.Partial? ==> r.rest == buffer
    ensures r.Complete? ==> NUL !in r.data && buffer == Delimit(r.data) + r.rest
  {
    if NUL !in buffer then Partial(buffer)
    else
      var i := FirstNul(buffer);
      Complete(buffer[..i], buffer[i + 1..])
  }

  /** There is only one way to cut a stream at its first delimiter. */
  lemma FirstCut(data: Bytes, rest: Bytes)
    requires NUL !in data
    ensures Extract(Delimit(data) + rest) == Complete(data, rest)
  {
    var whole := Delimit(data) + rest;
    assert whole[|data|] == NUL;
    var i := FirstNul(whole);
    assert forall k :: 0 <= k < |data| ==> whole[k] == data[k];
    assert forall k :: 0 <= k < i ==> whole[k] == whole[..i][k];
    assert whole[..i] == data && whole[i + 1..] == rest;
  }

  function Nuls(bytes: Bytes): nat {
    if bytes == [] then 0 else (if bytes[0] == NUL then 1 else 0) + Nuls(bytes[1..])
  }

  lemma {:induction false} NulsAppend(a: Bytes, b: Bytes)
    ensures Nuls(a + b) == Nuls(a) + Nuls(b)
  {
    if a == [] {
      assert a + b == b;
    } else {
      assert (a + b)[1..] == a[1..] + b;
      NulsAppend(a[1..], b);
    }
  }

  lemma {:induction false} NulsZero(a: Bytes)
    ensures Nuls(a) == 0 <==> NUL !in a
  {
    if a != [] {
      assert a == [a[0]] + a[1..];
      NulsZero(a[1..]);
    }
  }

  // ------------------------------------------------------------------ the wire

  /** One byte on the wire; the kernel attaches a descriptor batch to the first byte of the
      write that carried it. */
  datatype Cell = Cell(byte: Byte, fds: seq<int>)

  function Stamp(bytes: Bytes, fds: seq<int>): (cells: seq<Cell>)
    ensures |cells| == |bytes|
  {
    seq(|bytes|, i requires 0 <= i < |bytes| => Cell(bytes[i], if i == 0 then fds else []))
  }

  /** Stamping piecewise, with the descriptors on the first piece only, stamps the whole. */
  lemma StampSlice(bytes: Bytes, fds: seq<int>, i: nat, n: nat)
    requires i + n <= |bytes|
    ensures Stamp(bytes[i..][..n], if i == 0 then fds else []) == Stamp(bytes, fds)[i..i + n]
    ensures Stamp(bytes, fds)[..i] + Stamp(bytes, fds)[i..i + n] == Stamp(bytes, fds)[..i + n]
  {
    var piece, whole := Stamp(bytes[i..][..n], if i == 0 then fds else []), Stamp(bytes, fds);
    forall k | 0 <= k < n ensures piece[k] == whole[i..i + n][k] {
      assert bytes[i..][..n][k] == bytes[i + k] && whole[i..i + n][k] == whole[i + k];
    }
  }

  function FrameCells(frame: Frame): seq<Cell> {
    Stamp(Delimit(frame.data), frame.fds)
  }

  function Wire(frames: seq<Frame>): seq<Cell> {
    if frames == [] then [] else FrameCells(frames[0]) + Wire(frames[1..])
  }

  function BytesOf(cells: seq<Cell>): (bytes: Bytes)
    ensures |bytes| == |cells|
  {
    seq(|cells|, i requires 0 <= i < |cells| => cells[i].byte)
  }

  function FdsOf(cells: seq<Cell>): seq<int> {
    if cells == [] then [] else cells[0].fds + FdsOf(cells[1..])
  }

  type Count = n: nat | n >= 1 witness 1

  /** What one `sendmsg` call does: it blocks, or the kernel takes at least one byte. */
  datatype SendOutcome = SendBlocks | Sent(count: Count)

  function Granted(schedule: seq<SendOutcome>): nat {
    if schedule == [] then 0
    else (if schedule[0].Sent? then schedule[0].count else 0) + Granted(schedule[1..])
  }

  /** The bytes that the kernel takes add up over a schedule. */
  lemma {:induction false} GrantsAddUp(a: seq<SendOutcome>, b: seq<SendOutcome>)
    ensures Granted(a + b) == Granted(a) + Granted(b)
    ensures forall n: Count :: Granted([Sent(n)]) == n
    ensures Granted([SendBlocks]) == 0
  {
    if a == [] {
      assert a + b == b;
    } else {
      assert (a + b)[1..] == a[1..] + b;
      GrantsAddUp(a[1..], b);
    }
    assert forall n: Count :: Granted([Sent(n)]) == n + Granted([Sent(n)][1..]);
  }

  /** How many cells of a frame the kernel has taken by the end of a schedule. */
  function Taken(frame: Frame, schedule: seq<SendOutcome>): nat {
    if Granted(schedule) < |FrameCells(frame)| then Granted(schedule) else |FrameCells(frame)|
  }

  /** A control message only counts when it is `SCM_RIGHTS`. */
  datatype Control = Control(rights: bool, fds: seq<int>)

  /** What the kernel answers to the coming `recvmsg` calls: nothing yet, would-block, a reset,
      or a chunk (an empty one is the end of the stream). */
  datatype Inbox =
    | Quiet
    | Blocks(later: Inbox)
    | Reset
    | Message(data: Bytes, controls: seq<Control>, later: Inbox)
  {
    function Length(): nat {
      match this
      case Quiet => 0
      case Reset => 0
      case Blocks(later) => 1 + later.Length()
      case Message(_, _, later) => 1 + later.Length()
    }
  }

  function Rights(controls: seq<Control>): seq<int> {
    if controls == [] then []
    else (if controls[0].rights then controls[0].fds else []) + Rights(controls[1..])
  }

  lemma {:induction false} RightsAppend(a: seq<Control>, b: seq<Control>)
    ensures Rights(a + b) == Rights(a) + Rights(b)
  {
    if a == [] {
      assert a + b == b;
    } else {
      assert (a + b)[1..] == a[1..] + b;
      RightsAppend(a[1..], b);
    }
  }

  /** What the kernel puts beside a chunk: the descriptors `fds`, in order, in any number of
      rights-carrying messages, and any other control messages in between. */
  ghost predicate Carries(controls: seq<Control>, fds: seq<int>) {
    if controls == [] then fds == []
    else if !controls[0].rights then Carries(controls[1..], fds)
    else controls[0].fds <= fds && Carries(controls[1..], fds[|controls[0].fds|..])
  }

  /** Exactly those are gathered. */
  lemma {:induction false} RightsIffCarried(controls: seq<Control>, fds: seq<int>)
    ensures Carries(controls, fds) <==> Rights(controls) == fds
  {
    if controls != [] {
      if controls[0].rights {
        var n := |controls[0].fds|;
        if controls[0].fds <= fds {
          RightsIffCarried(controls[1..], fds[n..]);
          assert fds == controls[0].fds + fds[n..];
        }
        if Rights(controls) == fds {
          assert fds[..n] == controls[0].fds && fds[n..] == Rights(controls[1..]);
        }
      } else {
        RightsIffCarried(controls[1..], fds);
      }
    }
  }

  // ------------------------------------------------------------------ receiving, as a specification

  datatype End = Suspended | Closed | Overflow

  datatype Delivery = Delivery(frames: seq<Frame>, end: End, buffer: Bytes, fds: seq<int>)

  /** All the frames that successive `receive_frame` calls return, and how the last one ends.
      `fds` is the descriptor list gathered so far by the call in progress. */
  function Deliver(buffer: Bytes, inbox: Inbox, fds: seq<int>): Delivery
    decreases inbox, |buffer|
  {
    match Extract(buffer)
    case Complete(data, rest) =>
      var later := Deliver(rest, inbox, []);
      later.(frames := [Frame(data, fds)] + later.frames)
    case Partial(_) =>
      if |buffer| > MAX_BUFFER_SIZE then Delivery([], Overflow, buffer, fds)
      else match inbox
        case Quiet => Delivery([], Suspended, buffer, fds)
        case Blocks(later) => Deliver(buffer, later, fds)
        case Reset => Delivery([], Closed, buffer, fds)
        case Message(data, controls, later) =>
          if data == [] then Delivery([], Closed, buffer, fds)
          else Deliver(buffer + data, later, fds + Rights(controls))
  }

  datatype Received = Got(frame: Frame) | NotYet(end: End, fds: seq<int>)

  /** The delivery left once one call has returned `r` and left `buffer` and `inbox` behind. */
  function After(r: Received, buffer: Bytes, inbox: Inbox): Delivery {
    match r
    case Got(frame) => var later := Deliver(buffer, inbox, []); later.(frames := [frame] + later.frames)
    case NotYet(end, fds) => Delivery([], end, buffer, fds)
  }

  /** The longest the receive buffer ever gets while `inbox` is consumed. */
  function Peak(buffer: Bytes, inbox: Inbox): (peak: nat)
    ensures peak >= |buffer|
    decreases inbox, |buffer|
  {
    match Extract(buffer)
    case Complete(data, rest) => Max(|buffer|, Peak(rest, inbox))
    case Partial(_) =>
      if |buffer| > MAX_BUFFER_SIZE then |buffer|
      else match inbox
        case Quiet => |buffer|
        case Blocks(later) => Peak(buffer, later)
        case Reset => |buffer|
        case Message(data, _, later) => if data == [] then |buffer| else Peak(buffer + data, later)
  }

  function Max(a: nat, b: nat): nat {
    if a < b then b else a
  }

  lemma DeliveriesAppend(frames: seq<Frame>, frame: Frame, later: Delivery)
    ensures later.(frames := frames + ([frame] + later.frames)) == later.(frames := frames + [frame] + later.frames)
  {
    assert frames + ([frame] + later.frames) == frames + [frame] + later.frames;
  }

  // ------------------------------------------------------------------ the connection

  class Connection {
    var buffer: Bytes
    var inbox: Inbox  // what the kernel will answer to the coming recvmsg calls
    var outbox: seq<Cell>        // everything the kernel has accepted from this side

    constructor (inbox: Inbox)
      ensures buffer == [] && outbox == [] && this.inbox == inbox
    {
      this.buffer, this.inbox, this.outbox := [], inbox, [];
    }

    /** Whatever the partial writes, the wire gains a prefix of the frame's cells, the whole of
        it when the call returns, and the descriptors ride on its first byte only. */
    method SendFrame(frame: Frame, schedule: seq<SendOutcome>) returns (done: bool, taken: nat)
      modifies this`outbox
      ensures taken == Taken(frame, schedule)
      ensures outbox == old(outbox) + FrameCells(frame)[..taken]
      ensures done <==> taken == |FrameCells(frame)|
    {
      var data := Delimit(frame.data);
      var ancillary := frame.fds;
      ghost var cells := FrameCells(frame);
      taken := 0;
      var i := 0;
      while data != [] && i < |schedule|
        invariant 0 <= i <= |schedule| && taken <= |cells|
        invariant data == Delimit(frame.data)[taken..]
        invariant ancillary == if taken == 0 then frame.fds else []
        invariant outbox == old(outbox) + cells[..taken]
        invariant taken + Granted(schedule[i..]) <= Granted(schedule)
        invariant taken == |cells| || taken + Granted(schedule[i..]) == Granted(schedule)
        decreases |schedule| - i
      {
        if schedule[i].Sent? {
          var n := if schedule[i].count <= |data| then schedule[i].count else |data|;
          outbox := outbox + Stamp(data[..n], ancillary);
          StampSlice(Delimit(frame.data), frame.fds, taken, n);
          taken, data, ancillary := taken + n, data[n..], [];
        }
        i := i + 1;
      }
      done := data == [];
      assert done ==> outbox == old(outbox) + cells[..taken];
    }

    static method GatherRights(controls: seq<Control>) returns (fds: seq<int>)
      ensures fds == Rights(controls) && Carries(controls, fds)
    {
      fds := [];
      for k := 0 to |controls|
        invariant fds == Rights(controls[..k])
      {
        RightsAppend(controls[..k], [controls[k]]);
        assert controls[..k + 1] == controls[..k] + [controls[k]];
        if controls[k].rights {
          fds := fds + controls[k].fds;
        }
      }
      assert controls[..|controls|] == controls;
      RightsIffCarried(controls, fds);
    }

    /** One `receive_frame` call consumes exactly the head of the delivery, and at no point is its
        buffer longer than the peak of the whole run. */
    method ReceiveFrame() returns (r: Received)
      modifies this`buffer, this`inbox
      ensures Deliver(old(buffer), old(inbox), []) == After(r, buffer, inbox)
      ensures Peak(buffer, inbox) <= Peak(old(buffer), old(inbox))
      ensures inbox.Length() < old(inbox).Length() || (inbox == old(inbox) && (r.Got? ==> |buffer| < |old(buffer)|))
    {
      var allFds: seq<int> := [];
      while true
        invariant Deliver(old(buffer), old(inbox), []) == Deliver(buffer, inbox, allFds)
        invariant Peak(buffer, inbox) <= Peak(old(buffer), old(inbox))
        invariant inbox.Length() < old(inbox).Length() || (inbox == old(inbox) && buffer == old(buffer))
        decreases inbox.Length()
      {
        var extracted := Extract(buffer);
        buffer := extracted.rest;
        if extracted.Complete? {
          return Got(Frame(extracted.data, allFds));
        }
        if |buffer| > MAX_BUFFER_SIZE {
          return NotYet(Overflow, allFds);
        }
        while inbox.Blocks?
          invariant Deliver(old(buffer), old(inbox), []) == Deliver(buffer, inbox, allFds)
          invariant Peak(buffer, inbox) <= Peak(old(buffer), old(inbox))
          invariant inbox.Length() < old(inbox).Length() || (inbox == old(inbox) && buffer == old(buffer))
          invariant NUL !in buffer && |buffer| <= MAX_BUFFER_SIZE
          decreases inbox.Length()
        {
          inbox := inbox.later;
        }
        if inbox.Quiet? {
          return NotYet(Suspended, allFds);
        }
        if inbox.Reset? || inbox.data == [] {
          return NotYet(Closed, allFds);
        }
        buffer := buffer + inbox.data;
        var fds := GatherRights(inbox.controls);
        allFds := allFds + fds;
        inbox := inbox.later;
      }
    }

    /** The asynchronous iterator: it ends quietly on end of stream, and lets an overflow escape. */
    method ReceiveAll() returns (frames: seq<Frame>, end: End)
      modifies this`buffer, this`inbox
      ensures var d := Deliver(old(buffer), old(inbox), []); frames == d.frames && end == d.end && buffer == d.buffer
      ensures |buffer| <= Peak(old(buffer), old(inbox))
    {
      frames := [];
      while true
        invariant var d := Deliver(old(buffer), old(inbox), []);
                  var later := Deliver(buffer, inbox, []);
                  d == later.(frames := frames + later.frames)
        invariant Peak(buffer, inbox) <= Peak(old(buffer), old(inbox))
        decreases inbox.Length(), |buffer|
      {
        var r := ReceiveFrame();
        match r
        case Got(frame) =>
          DeliveriesAppend(frames, frame, Deliver(buffer, inbox, []));
          frames := frames + [frame];
        case NotYet(e, _) => return frames, e;
      }
    }
  }
}
