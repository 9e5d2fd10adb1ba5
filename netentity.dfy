/** The part both endpoints share (NetEntity): preparing a frame for the
    wire, the serialization cursor that spaces frames by the processing
    time, the channel decisions taken once a frame has been processed, and
    the receive-side parity and decode. */
module NetEntity {
  import opened Codec
  import opened Frames

  /** CreateTransmissionContext: no bit flipped yet, the reply not lost. */
  function NewContext(packet: Packet, msgId: Option<nat>): Context {
    Context(packet, msgId, -1, false)
  }

  function Mask(bit: nat): Byte
    requires bit < 8
  {
    (1 as Byte) << bit
  }

  /** The draws of a modification are in range for a payload of len bytes:
      a byte offset in [0, len) and a bit in [1, 8). */
  predicate FlipFits(f: Flip, len: int) {
    f.idx < len && 1 <= f.bit < 8
  }

  function Flipped(s: seq<Byte>, f: Flip): seq<Byte>
    requires FlipFits(f, |s|)
  {
    s[f.idx := s[f.idx] ^ Mask(f.bit)]
  }

  /** A DATA frame whose message asks for a modification gets one bit flipped. */
  predicate NeedsFlip(ctx: Context, flags: Option<Flags>) {
    ctx.packet.frameType == DATA && flags.Some? && flags.value.modification
  }

  /** The caller supplies in-range draws whenever a flip happens. */
  predicate FlipReady(ctx: Context, flags: Option<Flags>, f: Option<Flip>) {
    NeedsFlip(ctx, flags) ==> f.Some? && FlipFits(f.value, |Encoded(ctx.packet.payload)|)
  }

  /** The frame as SendPacket hands it to the pipeline: a DATA payload is
      stuffed, its parity is taken over the stuffed payload, and only then
      is the bit flipped; other frames go out as they are. */
  function Prepared(ctx: Context, flags: Option<Flags>, f: Option<Flip>): Context
    requires FlipReady(ctx, flags, f)
  {
    if ctx.packet.frameType != DATA then ctx
    else if NeedsFlip(ctx, flags) then FlipIn(Framed(ctx), f.value)
    else Framed(ctx)
  }

  /** A DATA frame with its payload stuffed and the parity of the stuffed
      payload stored. */
  function Framed(ctx: Context): (r: Context)
    ensures r.packet.payload == Encoded(ctx.packet.payload)
  {
    var enc := CStr(Encoded(ctx.packet.payload));
    EncodedShape(ctx.packet.payload);
    ctx.(packet := ctx.packet.(payload := enc, parity := Parity(enc)))
  }

  /** The drawn bit flipped in a framed payload, its index recorded. */
  function FlipIn(c: Context, f: Flip): Context
    requires FlipFits(f, |c.packet.payload|)
  {
    c.(packet := c.packet.(payload := CStr(Flipped(c.packet.payload, f))),
       modifiedBitIdx := f.idx * 8 + f.bit)
  }

  /** The serialization cursor after one more frame is queued at time now. */
  function NextCursor(p: Params, cursor: int, now: int): int {
    Max(cursor, now) + p.processingTime
  }

  /** The pre-process fires 500 ms before processing ends, never before now. */
  function PreDelay(delay: int): int {
    Max(delay - 500, 0)
  }

  datatype Sent = Sent(link: Link, ctx: Context, preNow: bool)

  /** The callbacks SendPacket schedules for a prepared frame whose
      processing ends delay ms from now. */
  function ScheduleCalls(c: Context, post: Option<Hook>, pre: Option<Hook>, now: int, delay: int): seq<Call> {
    [ScheduleCallback(now + delay, PostProcess(c, post))] +
    (if pre.Some? && PreDelay(delay) > 0
     then [ScheduleCallback(now + PreDelay(delay), PreProcess(c, pre.value))]
     else [])
  }

  /** The scheduling half of SendPacket: advance the cursor, schedule the
      post-process when processing ends, and schedule the pre-process, or
      report that it is due at once when its delay is not positive. */
  function Scheduled(p: Params, link: Link, c: Context, post: Option<Hook>, pre: Option<Hook>, now: int): Sent {
    var cursor := NextCursor(p, link.cursor, now);
    Sent(Link(cursor, link.log + ScheduleCalls(c, post, pre, now, cursor - now)),
         c, pre.Some? && PreDelay(cursor - now) <= 0)
  }

  /** SendPacket: prepare the frame, then schedule its callbacks. */
  function Pipeline(p: Params, link: Link, ctx: Context, flags: Option<Flags>,
                    post: Option<Hook>, pre: Option<Hook>, now: int, f: Option<Flip>): Sent
    requires FlipReady(ctx, flags, f)
  {
    Scheduled(p, link, Prepared(ctx, flags, f), post, pre, now)
  }

  /** CalculateDelay: the transmission delay, plus the error delay for a
      message whose delay flag is set. */
  function ChannelDelay(p: Params, flags: Option<Flags>): int {
    p.transmissionDelay + (if flags.Some? && flags.value.delay then p.errorDelay else 0)
  }

  predicate Lost(ctx: Context, flags: Option<Flags>) {
    (flags.Some? && flags.value.loss) || ctx.ackLost
  }

  predicate Duplicated(flags: Option<Flags>) {
    flags.Some? && flags.value.duplication
  }

  /** The calls the post-process makes after its hook: nothing for a lost
      frame; otherwise the frame after the channel delay and, for a
      duplicated message, a copy DD later and the deferred duplicate log. */
  function DeliveryCalls(p: Params, ctx: Context, flags: Option<Flags>, now: int): seq<Call> {
    if Lost(ctx, flags) then []
    else
      var d := ChannelDelay(p, flags);
      [SendDelayed(now + d, ctx.packet)] +
      (if Duplicated(flags)
       then [SendDelayed(now + d + p.duplicationDelay, ctx.packet),
             ScheduleCallback(now + p.duplicationDelay, DuplicateLog(ctx))]
       else [])
  }

  /** The frame as ReceivePacket leaves it: a DATA payload is unstuffed,
      everything else is untouched. */
  function Received(pkt: Packet): Packet
    requires pkt.frameType == DATA ==> |pkt.payload| >= 1
  {
    if pkt.frameType == DATA then pkt.(payload := CStr(Decoded(pkt.payload))) else pkt
  }

  /** The transceiver state an endpoint inherits from NetEntity. */
  class Transceiver {
    const params: Params
    var nextSendTime: int
    var log: seq<Call>

    function State(): Link
      reads this
    {
      Link(nextSendTime, log)
    }

    constructor(params: Params)
      ensures this.params == params && State() == Link(0, [])
    {
      this.params := params;
      nextSendTime := 0;
      log := [];
    }

    /** GetAndUpdateProcessingDelay. */
    method ProcessingDelay(now: int) returns (delay: int, preDelay: int)
      modifies this
      ensures nextSendTime == NextCursor(params, old(nextSendTime), now)
      ensures delay == nextSendTime - now && preDelay == PreDelay(delay)
      ensures log == old(log)
    {
      if nextSendTime <= now {
        nextSendTime := now;
      }
      nextSendTime := nextSendTime + params.processingTime;
      delay := nextSendTime - now;
      preDelay := if delay - 500 >= 0 then delay - 500 else 0;
    }

    /** ExecuteScheduled: a SCHEDULED self-message delay ms from now. */
    method ExecuteScheduled(now: int, delay: int, cb: Callback)
      modifies this
      ensures nextSendTime == old(nextSendTime)
      ensures log == old(log) + [ScheduleCallback(now + delay, cb)]
    {
      log := log + [ScheduleCallback(now + delay, cb)];
    }

    method SendPacket(ctx: Context, flags: Option<Flags>, post: Option<Hook>, pre: Option<Hook>,
                      now: int, f: Option<Flip>) returns (sent: Context, preNow: bool)
      requires FlipReady(ctx, flags, f)
      modifies this
      ensures var r := Pipeline(params, old(State()), ctx, flags, post, pre, now, f);
              State() == r.link && sent == r.ctx && preNow == r.preNow
    {
      sent := PrepareFrame(ctx, flags, f);
      var delay, preDelay := ProcessingDelay(now);
      ExecuteScheduled(now, delay, PostProcess(sent, post));
      preNow := false;
      if pre.Some? {
        if preDelay > 0 {
          ExecuteScheduled(now, preDelay, PreProcess(sent, pre.value));
        } else {
          preNow := true;
        }
      }
    }

    /** The post-process after its hook: the loss check, the delivery and
      the duplicate. */
    method Deliver(ctx: Context, flags: Option<Flags>, now: int)
      modifies this
      ensures State() == Link(old(nextSendTime), old(log) + DeliveryCalls(params, ctx, flags, now))
    {
      if (flags.Some? && flags.value.loss) || ctx.ackLost {
        return;
      }
      var delay := params.transmissionDelay;
      if flags.Some? && flags.value.delay {
        delay := delay + params.errorDelay;
      }
      log := log + [SendDelayed(now + delay, ctx.packet)];
      if flags.Some? && flags.value.duplication {
        var dupDelay := params.duplicationDelay;
        delay := delay + dupDelay;
        log := log + [SendDelayed(now + delay, ctx.packet)];
        ExecuteScheduled(now, dupDelay, DuplicateLog(ctx));
      }
    }

    /** Appends a cancellation of the given timer. */
    method CancelEvent(handle: nat)
      modifies this
      ensures State() == Link(old(nextSendTime), old(log) + [Call.CancelEvent(handle)])
    {
      log := log + [Call.CancelEvent(handle)];
    }

    /** Arms a timer at the given absolute time. */
    method ScheduleTimer(at: int, handle: nat, msgId: nat)
      modifies this
      ensures State() == Link(old(nextSendTime), old(log) + [Call.ScheduleTimer(at, handle, msgId)])
    {
      log := log + [Call.ScheduleTimer(at, handle, msgId)];
    }

    method EndSimulation()
      modifies this
      ensures State() == Link(old(nextSendTime), old(log) + [Call.EndSimulation])
    {
      log := log + [Call.EndSimulation];
    }
  }

  /** The DATA branch of SendPacket: stuff the payload, store the parity
      of the stuffed payload, then flip the drawn bit when the message asks
      for a modification. */
  method PrepareFrame(ctx: Context, flags: Option<Flags>, f: Option<Flip>) returns (sent: Context)
    requires FlipReady(ctx, flags, f)
    ensures sent == Prepared(ctx, flags, f)
  {
    sent := ctx;
    if ctx.packet.frameType == DATA {
      var stuffed := EncodePayload(ctx.packet.payload);
      var enc := CStr(stuffed);
      var parity := CalculateParity(enc);
      sent := sent.(packet := sent.packet.(payload := enc, parity := parity));
      assert sent == Framed(ctx);
      if flags.Some? && flags.value.modification {
        var fl := f.value;
        var modified := enc[fl.idx := enc[fl.idx] ^ Mask(fl.bit)];
        sent := sent.(packet := sent.packet.(payload := CStr(modified)),
                      modifiedBitIdx := fl.idx * 8 + fl.bit);
        assert sent == FlipIn(Framed(ctx), fl);
      }
    }
  }

  /** ReceivePacket (NetEntity): the parity is taken over the payload as it
      arrived, before a DATA payload is unstuffed. */
  method ReceiveFrame(pkt: Packet) returns (q: Packet, parity: int)
    requires pkt.frameType == DATA ==> |pkt.payload| >= 1
    ensures parity == Parity(pkt.payload)
    ensures q == Received(pkt)
  {
    parity := CalculateParity(pkt.payload);
    q := pkt;
    if pkt.frameType == DATA {
      var body := DecodePayload(pkt.payload);
      q := q.(payload := CStr(body));
    }
  }

  // ---------------------------------------------------------------------
  // Properties of the transceiver.
  // ---------------------------------------------------------------------

  /** The cursor never moves back, every frame takes at least the
      processing time, and two frames queued one after the other end at
      least one processing time apart. */
  lemma CursorLaws(p: Params, cursor: int, now: int)
    requires p.processingTime >= 0
    ensures NextCursor(p, cursor, now) >= cursor + p.processingTime
    ensures NextCursor(p, cursor, now) - now >= p.processingTime
    ensures 0 <= PreDelay(NextCursor(p, cursor, now) - now) <= NextCursor(p, cursor, now) - now
    ensures PreDelay(NextCursor(p, cursor, now) - now) > 0 <==> NextCursor(p, cursor, now) - now > 500
  {
  }

  /** What the pipeline schedules: one post-process when processing ends,
      a pre-process 500 ms earlier only when that is still in the future,
      and no timer call; the cursor is the new end of processing. */
  lemma PipelineCalls(p: Params, link: Link, c: Context, post: Option<Hook>, pre: Option<Hook>, now: int)
    ensures var r := Scheduled(p, link, c, post, pre, now);
            var end := Max(link.cursor, now) + p.processingTime;
            var extra := ScheduleCalls(c, post, pre, now, end - now);
            r.link == Link(end, link.log + extra) && r.ctx == c &&
            (forall k :: 0 <= k < |extra| ==> Quiet(extra[k]) && extra[k].ScheduleCallback?) &&
            extra[0] == ScheduleCallback(end, PostProcess(c, post)) &&
            (r.preNow <==> pre.Some? && end - now <= 500) &&
            (|extra| == 2 <==> pre.Some? && end - now > 500) &&
            (|extra| == 2 ==> extra[1] == ScheduleCallback(end - 500, PreProcess(c, pre.value))) &&
            1 <= |extra| <= 2
  {
  }

  /** A fresh context has no flipped bit and a reply that is not lost; once
      the frame is prepared, the recorded bit index stays -1 exactly when no
      bit was flipped (a flipped bit has index at least 1). */
  lemma FreshContext(packet: Packet, msgId: Option<nat>, flags: Option<Flags>, f: Option<Flip>)
    requires FlipReady(NewContext(packet, msgId), flags, f)
    ensures NewContext(packet, msgId).modifiedBitIdx == -1 && !NewContext(packet, msgId).ackLost
    ensures var r := Prepared(NewContext(packet, msgId), flags, f);
            !r.ackLost && r.msgId == msgId &&
            (r.modifiedBitIdx == -1 <==> !NeedsFlip(NewContext(packet, msgId), flags)) &&
            (NeedsFlip(NewContext(packet, msgId), flags) ==> r.modifiedBitIdx >= 1)
  {
  }

  /** A modified DATA frame: its parity was stored before the flip, the bit
      index is recorded, and the receiver's recomputed parity differs from
      the stored one unless the flip turned the byte into NUL, in which case
      the payload is cut at that byte. */
  lemma ModifiedFrame(ctx: Context, flags: Option<Flags>, f: Flip)
    requires NeedsFlip(ctx, flags) && FlipReady(ctx, flags, Some(f))
    ensures FlipFits(f, |Encoded(ctx.packet.payload)|) && NulFree(Encoded(ctx.packet.payload))
    ensures Prepared(ctx, flags, Some(f)).modifiedBitIdx == f.idx * 8 + f.bit
    ensures Prepared(ctx, flags, Some(f)).packet.parity == Parity(Encoded(ctx.packet.payload))
    ensures var enc := Encoded(ctx.packet.payload);
            var r := Prepared(ctx, flags, Some(f));
            enc[f.idx] ^ Mask(f.bit) != NUL ==>
              r.packet.payload == Flipped(enc, f) && Parity(r.packet.payload) != r.packet.parity
    ensures var enc := Encoded(ctx.packet.payload);
            enc[f.idx] ^ Mask(f.bit) == NUL ==> Prepared(ctx, flags, Some(f)).packet.payload == enc[..f.idx]
  {
    var enc := Encoded(ctx.packet.payload);
    EncodedShape(ctx.packet.payload);
    if enc[f.idx] ^ Mask(f.bit) != NUL {
      FlipDetected(enc, f);
    } else {
      FlipTruncates(enc, f);
    }
  }

  /** A flip that leaves no NUL changes the parity. */
  lemma FlipDetected(enc: CString, f: Flip)
    requires FlipFits(f, |enc|) && enc[f.idx] ^ Mask(f.bit) != NUL
    ensures CStr(Flipped(enc, f)) == Flipped(enc, f)
    ensures Parity(CStr(Flipped(enc, f))) != Parity(enc)
  {
    var t := Flipped(enc, f);
    FlipKeepsNulFree(enc, f);
    assert CStr(t) == t;
    FlipChangesFold(enc, f);
    SignExtendInjective(XorFold(t), XorFold(enc));
  }

  lemma FlipKeepsNulFree(enc: CString, f: Flip)
    requires FlipFits(f, |enc|) && enc[f.idx] ^ Mask(f.bit) != NUL
    ensures NulFree(Flipped(enc, f))
  {
    var t := Flipped(enc, f);
    forall j | 0 <= j < |t|
      ensures t[j] != NUL
    {
      if j != f.idx {
        assert t[j] == enc[j];
      }
    }
  }

  lemma FlipChangesFold(enc: seq<Byte>, f: Flip)
    requires FlipFits(f, |enc|)
    ensures XorFold(Flipped(enc, f)) != XorFold(enc)
  {
    XorFoldFlip(enc, f.idx, Mask(f.bit));
    XorNonZero(XorFold(enc), Mask(f.bit));
  }

  lemma XorNonZero(a: Byte, m: Byte)
    requires m != 0
    ensures a ^ m != a
  {
  }

  /** A flip that makes a NUL cuts the C string there. */
  lemma FlipTruncates(enc: CString, f: Flip)
    requires FlipFits(f, |enc|) && enc[f.idx] ^ Mask(f.bit) == NUL
    ensures CStr(Flipped(enc, f)) == enc[..f.idx]
  {
    var t := Flipped(enc, f);
    assert t[..f.idx] == enc[..f.idx];
    assert NulFree(enc[..f.idx]);
    CStrOfCut(t, f.idx);
  }

  /** A C string cut where a NUL stands. */
  lemma CStrOfCut(s: seq<Byte>, i: nat)
    requires i < |s| && s[i] == NUL && NulFree(s[..i])
    ensures CStr(s) == s[..i]
  {
  }

  /** An unmodified DATA frame carries the parity of what it carries, and
      unstuffing it at the receiver gives back the original payload. */
  lemma DeliveredIntact(ctx: Context, flags: Option<Flags>, f: Option<Flip>)
    requires ctx.packet.frameType == DATA && !NeedsFlip(ctx, flags) && FlipReady(ctx, flags, f)
    ensures var r := Prepared(ctx, flags, f);
            r.modifiedBitIdx == ctx.modifiedBitIdx &&
            |r.packet.payload| >= 1 &&
            Parity(r.packet.payload) == r.packet.parity &&
            Received(r.packet).payload == ctx.packet.payload
  {
    EncodedShape(ctx.packet.payload);
    RoundTrip(ctx.packet.payload);
  }

  /** Every prepared DATA payload keeps at least its first byte: '$' has two
      bits set, so one flipped bit cannot make it NUL. */
  lemma PreparedNonEmpty(ctx: Context, flags: Option<Flags>, f: Option<Flip>)
    requires ctx.packet.frameType == DATA && FlipReady(ctx, flags, f)
    ensures |Prepared(ctx, flags, f).packet.payload| >= 1
  {
    var enc := Encoded(ctx.packet.payload);
    EncodedShape(ctx.packet.payload);
    if NeedsFlip(ctx, flags) {
      var t := Flipped(enc, f.value);
      assert t[0] != NUL by {
        if f.value.idx == 0 {
          assert t[0] == FLAG ^ Mask(f.value.bit);
        }
      }
      assert |CStr(t)| >= 1;
    }
  }

  /** ACK and NACK frames are sent exactly as built. */
  lemma ControlFrameUntouched(ctx: Context, flags: Option<Flags>, f: Option<Flip>)
    requires ctx.packet.frameType != DATA
    ensures FlipReady(ctx, flags, f) && Prepared(ctx, flags, f) == ctx
  {
  }

  /** The channel: a lost frame (loss flag or ackLost) is not delivered at
      all; otherwise the frame arrives once after TD, plus ED when the
      message's delay flag is set (a frame with no message gets exactly TD),
      and a message with the duplication flag arrives a second time DD
      later; the copies are the frame unchanged and no timer is touched. */
  lemma Deliveries(p: Params, ctx: Context, flags: Option<Flags>, now: int)
    ensures var calls := DeliveryCalls(p, ctx, flags, now);
            (forall k :: 0 <= k < |calls| ==> Quiet(calls[k])) &&
            (Lost(ctx, flags) <==> |calls| == 0) &&
            (!Lost(ctx, flags) ==>
               calls[0] == SendDelayed(now + ChannelDelay(p, flags), ctx.packet) &&
               (|calls| == 3 <==> Duplicated(flags)) &&
               (|calls| == 1 <==> !Duplicated(flags)) &&
               (Duplicated(flags) ==>
                 calls[1] == SendDelayed(now + ChannelDelay(p, flags) + p.duplicationDelay, ctx.packet)))
    ensures flags.None? ==> ChannelDelay(p, flags) == p.transmissionDelay
    ensures flags.Some? ==>
              ChannelDelay(p, flags) == p.transmissionDelay + (if flags.value.delay then p.errorDelay else 0)
  {
  }
}
