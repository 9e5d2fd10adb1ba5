/** The receiving endpoint (NetReceiver): the parity verdict on each frame,
    the ACK/NACK reply, and the in-order accept rule over the single last
    accepted sequence number, applied once the reply has been processed. */
module Receiver {
  import opened Codec
  import opened Frames
  import opened NetEntity

  /** The sequence number that must have been accepted just before seqNum:
      seqNum - 1, wrapping to WS - 1 for 0. */
  function ExpectedPrev(ws: int, seqNum: int): (r: int)
    requires ws >= 1
    ensures 0 <= seqNum < ws ==> r == (seqNum - 1) % ws && 0 <= r < ws
  {
    if seqNum - 1 == -1 then ws - 1
    else
      assert 0 <= seqNum < ws ==> (seqNum - 1) % ws == seqNum - 1 by {
        if 0 <= seqNum < ws {
          ModUnique(seqNum - 1, 0, seqNum - 1, ws);
        }
      }
      seqNum - 1
  }

  /** The accept rule: the last accepted number moves to seqNum when nothing
      was accepted yet or the frame follows the last one, and the frame is
      intact. */
  function Accepted(ws: int, last: int, seqNum: int, error: bool): int
    requires ws >= 1
  {
    if (last == -1 || last == ExpectedPrev(ws, seqNum)) && !error then seqNum else last
  }

  /** The parity verdict: the carried parity differs from the parity of the
      payload as it arrived, still stuffed. */
  predicate ParityError(pkt: Packet) {
    pkt.parity != Parity(pkt.payload)
  }

  /** The reply to a frame: NACK on a parity error, ACK otherwise, echoing
      the frame's sequence number and ackNum, with an empty payload and
      parity -1. */
  function Reply(pkt: Packet, error: bool): Packet {
    Packet(if error then NACK else ACK, pkt.seqNum, pkt.ackNum, [], -1)
  }

  datatype ReceiverState = ReceiverState(last: int, link: Link)

  /** The context the reply is sent with: no message attached, lost when
      the loss draw falls below the loss rate. */
  function ReplyContext(p: Params, pkt: Packet, lossDraw: int): Context {
    NewContext(Reply(pkt, ParityError(pkt)), None).(ackLost := lossDraw < p.lossRate)
  }

  /** ReceivePacket (NetReceiver): take the verdict, then hand the reply to
      the pipeline with the accept rule as its post-process hook; the last
      accepted number is not touched yet. */
  function OnData(p: Params, st: ReceiverState, pkt: Packet, lossDraw: int, now: int): ReceiverState {
    var ctx := ReplyContext(p, pkt, lossDraw);
    var out := Pipeline(p, st.link, ctx, None, Some(Accept(pkt.seqNum, ParityError(pkt))), None, now, None);
    st.(link := out.link)
  }

  /** The reply's post-process callback: apply the accept rule, then let the
      channel deliver the reply (no message attached). */
  function OnReplyProcessed(p: Params, st: ReceiverState, ctx: Context, seqNum: int, error: bool,
                            now: int): ReceiverState
    requires ValidParams(p)
  {
    ReceiverState(Accepted(p.windowSize, st.last, seqNum, error),
                  st.link.(log := st.link.log + DeliveryCalls(p, ctx, None, now)))
  }

  /** The receiver's state object. */
  class NetReceiver {
    const params: Params
    const link: Transceiver
    var lastSeqNum: int

    function State(): ReceiverState
      reads this, link
    {
      ReceiverState(lastSeqNum, link.State())
    }

    /** The constructor: nothing accepted yet. */
    constructor(params: Params)
      ensures this.params == params && link.params == params && fresh(link)
      ensures State() == ReceiverState(-1, Link(0, []))
    {
      this.params := params;
      link := new Transceiver(params);
      lastSeqNum := -1;
    }

    /** ReceivePacket; lossDraw is the uniform draw in [0, 100), truncated. */
    method ReceivePacket(pkt: Packet, lossDraw: int, now: int)
      requires link.params == params && 0 <= lossDraw < 100
      requires pkt.frameType == DATA ==> |pkt.payload| >= 1
      modifies link
      ensures State() == OnData(params, old(State()), pkt, lossDraw, now)
    {
      var _, newParity := ReceiveFrame(pkt);
      var error := pkt.parity != newParity;
      var lost := lossDraw < params.lossRate;
      var ack := Packet(if error then NACK else ACK, pkt.seqNum, pkt.ackNum, [], -1);
      var ctx := NewContext(ack, None);
      ctx := ctx.(ackLost := lost);
      var _, _ := link.SendPacket(ctx, None, Some(Accept(pkt.seqNum, error)), None, now, None);
    }

    /** The reply's post-process callback. */
    method RunPostProcess(ctx: Context, seqNum: int, error: bool, now: int)
      requires link.params == params && ValidParams(params)
      modifies this, link
      ensures State() == OnReplyProcessed(params, old(State()), ctx, seqNum, error, now)
    {
      var prevSeqNum := seqNum - 1;
      if prevSeqNum == -1 {
        prevSeqNum := params.windowSize - 1;
      }
      if lastSeqNum == -1 || lastSeqNum == prevSeqNum {
        if !error {
          lastSeqNum := seqNum;
        }
      }
      link.Deliver(ctx, None, now);
    }
  }

  // ---------------------------------------------------------------------
  // Properties of the receiver.
  // ---------------------------------------------------------------------

  /** The accept rule over a run of verdicts, in arrival order. */
  function AcceptAll(ws: int, last: int, frames: seq<(int, bool)>): int
    requires ws >= 1
    decreases |frames|
  {
    if |frames| == 0 then last
    else Accepted(ws, AcceptAll(ws, last, frames[..|frames| - 1]), frames[|frames| - 1].0, frames[|frames| - 1].1)
  }

  /** The frames 0, 1, ..., k - 1 as the sender numbers them, all intact. */
  function InOrder(ws: int, k: nat): seq<(int, bool)>
    requires ws >= 1
  {
    seq(k, j requires 0 <= j < k => (j % ws, false))
  }

  /** A fresh receiver that gets the sender's frames in order and intact
      accepts every one of them: afterwards the last accepted number is that
      of the last frame. */
  lemma {:induction false} InOrderAccepted(ws: int, k: nat)
    requires ws >= 1
    ensures AcceptAll(ws, -1, InOrder(ws, k)) == if k == 0 then -1 else (k - 1) % ws
  {
    if k > 0 {
      assert InOrder(ws, k)[..k - 1] == InOrder(ws, k - 1);
      InOrderAccepted(ws, k - 1);
      if k > 1 {
        ModStep(k - 2, ws);
      }
    }
  }

  /** A receiver that only sees sequence numbers in [0, WS) keeps the last
      accepted number in {-1} and [0, WS). */
  lemma AcceptedRange(ws: int, last: int, seqNum: int, error: bool)
    requires ws >= 1 && -1 <= last < ws && 0 <= seqNum < ws
    ensures -1 <= Accepted(ws, last, seqNum, error) < ws
  {
  }

  /** A frame that arrives out of order (not after the last accepted one,
      once something was accepted) leaves the last accepted number as it is,
      whatever its verdict. */
  lemma OutOfOrderKept(ws: int, last: int, seqNum: int, error: bool)
    requires ws >= 1 && 0 <= last < ws && 0 <= seqNum < ws && last != (seqNum - 1) % ws
    ensures Accepted(ws, last, seqNum, error) == last
  {
  }

  /** Every frame is answered: the receiver schedules exactly one callback,
      the reply's post-process, at the end of processing; the reply is a
      NACK exactly on a parity error and echoes the frame's numbers with an
      empty payload and parity -1; it is lost exactly when the draw is below
      the loss rate; the last accepted number is not changed on arrival. */
  lemma ReplyScheduled(p: Params, st: ReceiverState, pkt: Packet, lossDraw: int, now: int)
    ensures var r := OnData(p, st, pkt, lossDraw, now);
            var end := Max(st.link.cursor, now) + p.processingTime;
            var ctx := ReplyContext(p, pkt, lossDraw);
            r.last == st.last &&
            r.link == Link(end, st.link.log + [ScheduleCallback(end, PostProcess(ctx, Some(Accept(pkt.seqNum, ParityError(pkt)))))]) &&
            (ctx.packet.frameType == NACK <==> pkt.parity != Parity(pkt.payload)) &&
            (ctx.packet.frameType == ACK <==> pkt.parity == Parity(pkt.payload)) &&
            ctx.packet.seqNum == pkt.seqNum && ctx.packet.ackNum == pkt.ackNum &&
            ctx.packet.payload == [] && ctx.packet.parity == -1 &&
            ctx.modifiedBitIdx == -1 && ctx.msgId.None? &&
            (ctx.ackLost <==> lossDraw < p.lossRate)
  {
    var ctx := ReplyContext(p, pkt, lossDraw);
    ControlFrameUntouched(ctx, None, None);
    PipelineCalls(p, st.link, ctx, Some(Accept(pkt.seqNum, ParityError(pkt))), None, now);
  }

  /** Delivering the reply: a lost reply sends nothing; otherwise exactly
      one copy goes out after the transmission delay alone. */
  lemma ReplyDelivered(p: Params, st: ReceiverState, ctx: Context, seqNum: int, error: bool, now: int)
    requires ValidParams(p)
    ensures var r := OnReplyProcessed(p, st, ctx, seqNum, error, now);
            (ctx.ackLost ==> r.link == st.link) &&
            (!ctx.ackLost ==> r.link.log == st.link.log + [SendDelayed(now + p.transmissionDelay, ctx.packet)]) &&
            r.link.cursor == st.link.cursor
  {
    Deliveries(p, ctx, None, now);
  }

  /** End to end: a DATA frame the sender prepared without a modification
      passes the parity check and is answered with an ACK that names its
      message; one whose flipped bit did not become NUL fails it and is
      answered with a NACK. */
  lemma VerdictOfPrepared(ctx: Context, flags: Option<Flags>, f: Option<Flip>)
    requires ctx.packet.frameType == DATA && FlipReady(ctx, flags, f)
    ensures var r := Prepared(ctx, flags, f).packet;
            (!NeedsFlip(ctx, flags) ==>
               !ParityError(r) && Reply(r, ParityError(r)) == Packet(ACK, ctx.packet.seqNum, ctx.packet.ackNum, [], -1))
    ensures NeedsFlip(ctx, flags) && Encoded(ctx.packet.payload)[f.value.idx] ^ Mask(f.value.bit) != NUL ==>
              var r := Prepared(ctx, flags, f).packet;
              ParityError(r) && Reply(r, ParityError(r)).frameType == NACK
  {
    if NeedsFlip(ctx, flags) {
      ModifiedFrame(ctx, flags, f.value);
    } else {
      DeliveredIntact(ctx, flags, f);
    }
  }
}
