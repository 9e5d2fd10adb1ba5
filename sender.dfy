/** The sending endpoint (NetSender): a window of slots over every input
    message, a base cursor, timers per slot, and the ACK/NACK and timeout
    rules that move the window. The functions below state each operation on
    a value of the sender's whole state; the class NetSender at the end of
    the module performs them in place. */
module Sender {
  import opened Codec
  import opened Frames
  import opened NetEntity

  /** WindowPacketData: one slot per message; timer is the handle of the
      slot's timer message, None for a null pointer. */
  datatype Slot = Slot(seqNum: int, data: Message, read: bool, sent: bool, acked: bool, timer: Option<nat>)

  /** The sender's state: its slots, the window base, the next fresh timer
      handle and its transceiver. */
  datatype SenderState = SenderState(window: seq<Slot>, base: int, nextHandle: nat, link: Link)

  /** One past the last slot of the current window. */
  function WindowEnd(p: Params, st: SenderState): int {
    Min(st.base + p.windowSize, |st.window|)
  }

  /** Every slot's message id is its index (the source indexes the window
      by message id throughout). */
  predicate Indexed(window: seq<Slot>) {
    forall i :: 0 <= i < |window| ==> window[i].data.id == i
  }

  /** The length of the frame a message text becomes on the wire, counted
      byte by byte: the text up to its first NUL, one more byte for each
      '$' or '/', and the two flags. */
  function FrameLength(t: seq<Byte>): nat {
    if |t| == 0 || t[0] == NUL then 2 else (if IsSpecial(t[0]) then 2 else 1) + FrameLength(t[1..])
  }

  lemma {:induction false} FrameLengthIs(t: seq<Byte>)
    ensures FrameLength(t) == |Encoded(CStr(t))|
  {
    EncodedShape(CStr(t));
    if |t| > 0 && t[0] != NUL {
      FrameLengthIs(t[1..]);
      EncodedShape(CStr(t[1..]));
      assert CStr(t) == [t[0]] + CStr(t[1..]);
      assert ([t[0]] + CStr(t[1..]))[1..] == CStr(t[1..]);
    }
  }

  /** The modification draws for one send of this slot are in range. */
  predicate DrawFits(s: Slot, f: Flip) {
    s.data.flags.modification ==> FlipFits(f, FrameLength(s.data.text))
  }

  /** One pair of draws per slot, each in range for its slot. */
  predicate DrawsFit(window: seq<Slot>, draws: seq<Flip>) {
    |draws| == |window| && forall k :: 0 <= k < |window| ==> DrawFits(window[k], draws[k])
  }

  predicate AllAcked(window: seq<Slot>) {
    forall k :: 0 <= k < |window| ==> window[k].acked
  }

  /** CreateOutgoingPacket: a DATA frame with the slot's sequence number,
      the message id as ackNum, the message text as a C string and parity -1. */
  function Outgoing(window: seq<Slot>, d: Message): (r: Packet)
    requires 0 <= d.id < |window|
    ensures r.frameType == DATA && r.seqNum == window[d.id].seqNum && r.ackNum == d.id
    ensures r.parity == -1 && r.payload == CStr(d.text)
  {
    Packet(DATA, window[d.id].seqNum, d.id, CStr(d.text), -1)
  }

  /** ConstructWindow, as a value: slot i has sequence number i mod WS and
      nothing read, sent, acked or timed. */
  function Constructed(ws: int, msgs: seq<Message>): seq<Slot>
    requires ws >= 1
  {
    seq(|msgs|, i requires 0 <= i < |msgs| => Slot(i % ws, msgs[i], false, false, false, None))
  }

  /** CancelTimer on slot i: cancel the scheduled timer, if any, and null
      the handle. */
  function CancelSlot(st: SenderState, i: int): (r: SenderState)
    requires 0 <= i < |st.window|
    ensures |r.window| == |st.window| && r.base == st.base && r.nextHandle == st.nextHandle
    ensures r.window[i] == st.window[i].(timer := None)
    ensures forall k :: 0 <= k < |st.window| && k != i ==> r.window[k] == st.window[k]
    ensures r.link.cursor == st.link.cursor
    ensures st.window[i].timer.None? ==> r == st
    ensures st.window[i].timer.Some? ==>
              r.link.log == st.link.log + [CancelEvent(st.window[i].timer.value)]
  {
    match st.window[i].timer
    case None => st
    case Some(h) =>
      st.(window := st.window[i := st.window[i].(timer := None)],
          link := st.link.(log := st.link.log + [CancelEvent(h)]))
  }

  /** StartTimer on slot i: cancel any timer it holds, then arm a fresh one
      TO from now and keep its handle in the slot. */
  function StartSlotTimer(p: Params, st: SenderState, i: int, now: int): (r: SenderState)
    requires 0 <= i < |st.window|
    ensures |r.window| == |st.window| && r.base == st.base && r.nextHandle == st.nextHandle + 1
    ensures r.window[i] == st.window[i].(timer := Some(st.nextHandle))
    ensures forall k :: 0 <= k < |st.window| && k != i ==> r.window[k] == st.window[k]
    ensures r.link.cursor == st.link.cursor
    ensures r.link.log == st.link.log +
              (if st.window[i].timer.Some? then [CancelEvent(st.window[i].timer.value)] else []) +
              [ScheduleTimer(now + p.timeout, st.nextHandle, i)]
  {
    var s := CancelSlot(st, i);
    s.(window := s.window[i := s.window[i].(timer := Some(s.nextHandle))],
       nextHandle := s.nextHandle + 1,
       link := s.link.(log := s.link.log + [ScheduleTimer(now + p.timeout, s.nextHandle, i)]))
  }

  /** The pre-process callback: mark the slot read the first time. */
  function ReadSlot(st: SenderState, i: int): (r: SenderState)
    requires 0 <= i < |st.window|
    ensures r == st.(window := st.window[i := st.window[i].(read := true)])
  {
    if !st.window[i].read then st.(window := st.window[i := st.window[i].(read := true)]) else st
  }

  /** One iteration of SendWindow on slot i: skip a sent slot unless forced;
      otherwise mark it sent and unacked, cancel its timer and hand a fresh
      DATA frame to the pipeline, whose pre-process may be due at once. */
  function SendSlot(p: Params, st: SenderState, i: int, force: bool, draw: Flip, now: int): (r: SenderState)
    requires 0 <= i < |st.window| && st.window[i].data.id == i && DrawFits(st.window[i], draw)
    ensures |r.window| == |st.window| && r.base == st.base && r.nextHandle == st.nextHandle
    ensures forall k :: 0 <= k < |st.window| && k != i ==> r.window[k] == st.window[k]
    ensures r.window[i].data == st.window[i].data && r.window[i].seqNum == st.window[i].seqNum
    ensures st.window[i].read ==> r.window[i].read
    ensures !force && st.window[i].sent ==> r == st
    ensures force || !st.window[i].sent ==>
              r.window[i].sent && !r.window[i].acked && r.window[i].timer.None?
  {
    var w := st.window[i];
    if !force && w.sent then st
    else
      FrameLengthIs(w.data.text);
      var s1 := CancelSlot(st.(window := st.window[i := w.(sent := true, acked := false)]), i);
      Handed(p, s1, NewContext(Outgoing(s1.window, s1.window[i].data), Some(i)), i, draw, now)
  }

  /** NetSender's SendPacket for slot i: the pipeline with the sender's two
      callbacks (start the timer after processing, mark read before it);
      a pre-process that is already due runs at once. */
  function Handed(p: Params, st: SenderState, ctx: Context, i: int, draw: Flip, now: int): (r: SenderState)
    requires 0 <= i < |st.window| && FlipReady(ctx, Some(st.window[i].data.flags), Some(draw))
    ensures |r.window| == |st.window| && r.base == st.base && r.nextHandle == st.nextHandle
    ensures forall k :: 0 <= k < |st.window| && k != i ==> r.window[k] == st.window[k]
    ensures r.window[i] == st.window[i] || r.window[i] == st.window[i].(read := true)
  {
    var out := Pipeline(p, st.link, ctx, Some(st.window[i].data.flags), Some(StartTimer(i)), Some(MarkRead(i)), now, Some(draw));
    var s2 := st.(link := out.link);
    if out.preNow then ReadSlot(s2, i) else s2
  }

  /** SendWindow's loop over slots [lo, hi), slot by slot in order. */
  function SendRange(p: Params, st: SenderState, lo: int, hi: int, force: bool,
                     draws: seq<Flip>, now: int): SenderState
    requires 0 <= lo && hi <= |st.window| && Indexed(st.window) && DrawsFit(st.window, draws)
    decreases hi - lo
  {
    if hi <= lo then st
    else
      SendRange(p, SendSlot(p, st, lo, force, draws[lo], now), lo + 1, hi, force, draws, now)
  }

  /** SendWindow(force) over the current window. */
  function WindowSent(p: Params, st: SenderState, force: bool, draws: seq<Flip>, now: int): SenderState
    requires 0 <= st.base && Indexed(st.window) && DrawsFit(st.window, draws)
  {
    SendRange(p, st, st.base, WindowEnd(p, st), force, draws, now)
  }

  /** SendWindow's loop keeps every slot's message and sequence number, the
      base and the handle counter. */
  lemma {:induction false} SendRangeKeeps(p: Params, st: SenderState, lo: int, hi: int, force: bool,
                                          draws: seq<Flip>, now: int)
    requires 0 <= lo && hi <= |st.window| && Indexed(st.window) && DrawsFit(st.window, draws)
    ensures var r := SendRange(p, st, lo, hi, force, draws, now);
            |r.window| == |st.window| && r.base == st.base && r.nextHandle == st.nextHandle &&
            SameData(st.window, r.window) &&
            forall k :: 0 <= k < |st.window| ==> r.window[k].seqNum == st.window[k].seqNum
    decreases hi - lo
  {
    if hi > lo {
      SendRangeStep(p, st, lo, hi, force, draws, now);
      SendRangeKeeps(p, SendSlot(p, st, lo, force, draws[lo], now), lo + 1, hi, force, draws, now);
    }
  }

  /** The slot an ACK marks: acked, with its timer cancelled. */
  function AckedWindow(st: SenderState, ackNum: int): seq<Slot>
    requires 0 <= ackNum < |st.window|
  {
    st.window[ackNum := st.window[ackNum].(acked := true, timer := None)]
  }

  /** The acked slot with its timer cancelled, before the base test. */
  function AckedState(st: SenderState, ackNum: int): (r: SenderState)
    requires 0 <= ackNum < |st.window|
    ensures r.window == AckedWindow(st, ackNum) && r.base == st.base && r.nextHandle == st.nextHandle
  {
    CancelSlot(st.(window := st.window[ackNum := st.window[ackNum].(acked := true)]), ackNum)
  }

  /** An ACK for slot ackNum: mark it acked and cancel its timer; only an
      ACK for the base moves anything else: end the simulation when every
      slot is acked, otherwise advance the base by one (never past the last
      slot) and send what the window now holds. */
  function OnAck(p: Params, st: SenderState, ackNum: int, draws: seq<Flip>, now: int): SenderState
    requires 0 <= ackNum < |st.window| && 0 <= st.base && Indexed(st.window) && DrawsFit(st.window, draws)
  {
    var s1 := AckedState(st, ackNum);
    if ackNum != st.base then s1
    else if AllAcked(s1.window) then s1.(link := s1.link.(log := s1.link.log + [EndSimulation]))
    else
      assert DrawsFit(s1.window, draws) by {
        assert forall k :: 0 <= k < |s1.window| ==> s1.window[k].data == st.window[k].data;
      }
      WindowSent(p, Advanced(st, ackNum), false, draws, now)
  }

  /** A frame arriving at the sender: ACK as above, NACK changes nothing,
      any other frame type is refused. */
  function OnFrame(p: Params, st: SenderState, pkt: Packet, draws: seq<Flip>, now: int): SenderState
    requires pkt.frameType == ACK ==> 0 <= pkt.ackNum < |st.window|
    requires 0 <= st.base && Indexed(st.window) && DrawsFit(st.window, draws)
  {
    if pkt.frameType == ACK then OnAck(p, st, pkt.ackNum, draws, now) else st
  }

  /** In the window [base, base + WS)? */
  predicate InWindow(p: Params, st: SenderState, id: int) {
    st.base <= id < st.base + p.windowSize
  }

  /** A timer event: ignore a null message, an acked slot and a slot outside
      the window; otherwise clear all four fault flags of that message and
      resend the whole window. */
  function OnTimeout(p: Params, st: SenderState, id: Option<int>, draws: seq<Flip>, now: int): SenderState
    requires id.Some? ==> 0 <= id.value < |st.window|
    requires 0 <= st.base && Indexed(st.window) && DrawsFit(st.window, draws)
  {
    if id.None? then st
    else
      var i := id.value;
      if st.window[i].acked || !InWindow(p, st, i) then st
      else
        var s1 := Cleared(st, i);
        assert DrawsFit(s1.window, draws);
        WindowSent(p, s1, true, draws, now)
  }

  /** The sender's post-process callback: start the slot's timer, then let
      the channel deliver the frame with the message's current flags. */
  function PostProcessed(p: Params, st: SenderState, ctx: Context, i: int, now: int): (r: SenderState)
    requires 0 <= i < |st.window|
    ensures |r.window| == |st.window| && r.base == st.base
  {
    var s := StartSlotTimer(p, st, i, now);
    var flags := s.window[i].data.flags;
    s.(link := s.link.(log := s.link.log + DeliveryCalls(p, ctx, Some(flags), now)))
  }

  // ---------------------------------------------------------------------
  // The sender's invariant.
  // ---------------------------------------------------------------------

  /** Every armed timer belongs to the slot that holds its handle, every
      held handle is armed, and handles are drawn below nextHandle. */
  predicate TimersOk(st: SenderState) {
    var armed := Armed(st.link.log);
    (forall h :: h in armed ==> h < st.nextHandle && armed[h] < |st.window| &&
                                st.window[armed[h]].timer == Some(h)) &&
    (forall i :: 0 <= i < |st.window| && st.window[i].timer.Some? ==>
                   st.window[i].timer.value in armed && armed[st.window[i].timer.value] == i)
  }

  /** The sequence number of slot k: k mod WS, counted by subtracting WS
      until it falls below WS. */
  function SeqNumber(k: nat, ws: int): int
    requires ws >= 1
    decreases k
  {
    if k < ws then k else SeqNumber(k - ws, ws)
  }

  lemma {:induction false} SeqNumberIsMod(k: nat, ws: int)
    requires ws >= 1
    ensures SeqNumber(k, ws) == k % ws
    decreases k
  {
    if k >= ws {
      SeqNumberIsMod(k - ws, ws);
      var q := (k - ws) / ws;
      assert k == (q + 1) * ws + (k - ws) % ws;
      ModUnique(k, q + 1, (k - ws) % ws, ws);
    } else {
      ModUnique(k, 0, k, ws);
    }
  }

  predicate Inv(p: Params, st: SenderState) {
    ValidParams(p) &&
    (|st.window| == 0 ==> st.base == 0) &&
    (|st.window| > 0 ==> 0 <= st.base < |st.window|) &&
    (forall i :: 0 <= i < |st.window| ==>
       st.window[i].seqNum == SeqNumber(i, p.windowSize) && st.window[i].data.id == i) &&
    (forall i :: 0 <= i < st.base ==> st.window[i].acked) &&
    TimersOk(st)
  }

  /** Every slot carries the same message in both windows. */
  predicate SameData(a: seq<Slot>, b: seq<Slot>) {
    |a| == |b| && forall k :: 0 <= k < |a| ==> a[k].data == b[k].data
  }

  /** Each read flag goes from false to true at most once and is never reset. */
  predicate ReadKept(a: seq<Slot>, b: seq<Slot>) {
    |a| == |b| && forall k :: 0 <= k < |a| ==> a[k].read ==> b[k].read
  }

  // ---------------------------------------------------------------------
  // Properties of the sender.
  // ---------------------------------------------------------------------

  /** ConstructWindow establishes the invariant, with base 0. */
  lemma ConstructedInv(p: Params, msgs: seq<Message>)
    requires ValidParams(p) && forall i :: 0 <= i < |msgs| ==> msgs[i].id == i
    ensures var st := SenderState(Constructed(p.windowSize, msgs), 0, 0, Link(0, []));
            Inv(p, st) && |st.window| == |msgs|
    ensures forall i :: 0 <= i < |msgs| ==>
              var w := Constructed(p.windowSize, msgs)[i];
              w.data == msgs[i] && w.seqNum == i % p.windowSize &&
              !w.read && !w.sent && !w.acked && w.timer.None?
  {
    forall i | 0 <= i < |msgs|
      ensures Constructed(p.windowSize, msgs)[i].seqNum == SeqNumber(i, p.windowSize)
    {
      SeqNumberIsMod(i, p.windowSize);
    }
  }

  /** Timers: after StartTimer the slot holds exactly one armed timer, the
      fresh one; after CancelTimer it holds none and its handle is null;
      CancelTimer on a null handle changes nothing. */
  lemma TimerDiscipline(p: Params, st: SenderState, i: int, now: int)
    requires Inv(p, st) && 0 <= i < |st.window|
    ensures var r := CancelSlot(st, i);
            Inv(p, r) && r.window[i].timer.None? &&
            (forall h :: h in Armed(r.link.log) ==> Armed(r.link.log)[h] != i) &&
            (st.window[i].timer.None? ==> r == st)
    ensures var r := StartSlotTimer(p, st, i, now);
            Inv(p, r) && r.window[i].timer == Some(st.nextHandle) &&
            (forall h :: h in Armed(r.link.log) && Armed(r.link.log)[h] == i ==> h == st.nextHandle)
  {
    CancelInv(p, st, i);
    StartInv(p, st, i, now);
  }

  lemma CancelInv(p: Params, st: SenderState, i: int)
    requires Inv(p, st) && 0 <= i < |st.window|
    ensures Inv(p, CancelSlot(st, i))
    ensures forall h :: h in Armed(CancelSlot(st, i).link.log) ==> Armed(CancelSlot(st, i).link.log)[h] != i
  {
    var r := CancelSlot(st, i);
    if st.window[i].timer.Some? {
      ArmedStep(st.link.log, CancelEvent(st.window[i].timer.value));
    }
  }

  lemma StartInv(p: Params, st: SenderState, i: int, now: int)
    requires Inv(p, st) && 0 <= i < |st.window|
    ensures Inv(p, StartSlotTimer(p, st, i, now))
    ensures var r := StartSlotTimer(p, st, i, now);
            forall h :: h in Armed(r.link.log) && Armed(r.link.log)[h] == i ==> h == st.nextHandle
  {
    CancelInv(p, st, i);
    var s := CancelSlot(st, i);
    ArmedStep(s.link.log, ScheduleTimer(now + p.timeout, s.nextHandle, i));
  }

  lemma MarkSentInv(p: Params, st: SenderState, i: int)
    requires Inv(p, st) && st.base <= i < |st.window|
    ensures Inv(p, st.(window := st.window[i := st.window[i].(sent := true, acked := false)]))
  {
    var s := st.(window := st.window[i := st.window[i].(sent := true, acked := false)]);
    assert TimersOk(s);
  }

  lemma ReadSlotInv(p: Params, st: SenderState, i: int)
    requires Inv(p, st) && 0 <= i < |st.window|
    ensures Inv(p, ReadSlot(st, i))
  {
    var s := ReadSlot(st, i);
    assert TimersOk(s);
  }

  /** Calls that touch no timer keep the invariant. */
  lemma QuietInv(p: Params, st: SenderState, cursor: int, extra: seq<Call>)
    requires Inv(p, st) && forall k :: 0 <= k < |extra| ==> Quiet(extra[k])
    ensures Inv(p, st.(link := Link(cursor, st.link.log + extra)))
  {
    ArmedQuiet(st.link.log, extra);
  }

  /** Handing a frame to the pipeline keeps the invariant. */
  lemma HandedInv(p: Params, st: SenderState, ctx: Context, i: int, draw: Flip, now: int)
    requires Inv(p, st) && 0 <= i < |st.window| && FlipReady(ctx, Some(st.window[i].data.flags), Some(draw))
    ensures Inv(p, Handed(p, st, ctx, i, draw, now))
  {
    var c := Prepared(ctx, Some(st.window[i].data.flags), Some(draw));
    PipelineCalls(p, st.link, c, Some(StartTimer(i)), Some(MarkRead(i)), now);
    var out := Scheduled(p, st.link, c, Some(StartTimer(i)), Some(MarkRead(i)), now);
    var extra := ScheduleCalls(c, Some(StartTimer(i)), Some(MarkRead(i)), now, out.link.cursor - now);
    assert out.link == Link(out.link.cursor, st.link.log + extra);
    QuietInv(p, st, out.link.cursor, extra);
    var s2 := st.(link := out.link);
    assert Inv(p, s2);
    if out.preNow {
      ReadSlotInv(p, s2, i);
    }
  }

  /** Sending a slot keeps the invariant when the slot is in the window. */
  lemma SendSlotInv(p: Params, st: SenderState, i: int, force: bool, draw: Flip, now: int)
    requires Inv(p, st) && st.base <= i < |st.window| && DrawFits(st.window[i], draw)
    ensures Inv(p, SendSlot(p, st, i, force, draw, now))
  {
    var w := st.window[i];
    if force || !w.sent {
      var s0 := st.(window := st.window[i := w.(sent := true, acked := false)]);
      MarkSentInv(p, st, i);
      CancelInv(p, s0, i);
      var s1 := CancelSlot(s0, i);
      FrameLengthIs(w.data.text);
      HandedInv(p, s1, NewContext(Outgoing(s1.window, s1.window[i].data), Some(i)), i, draw, now);
    }
  }

  /** SendWindow keeps the invariant. */
  lemma {:induction false} SendRangeInv(p: Params, st: SenderState, lo: int, hi: int, force: bool,
                                        draws: seq<Flip>, now: int)
    requires Inv(p, st) && st.base <= lo && hi <= |st.window| && DrawsFit(st.window, draws)
    ensures Inv(p, SendRange(p, st, lo, hi, force, draws, now))
    decreases hi - lo
  {
    if hi > lo {
      SendRangeInvStep(p, st, lo, hi, force, draws, now);
      SendRangeInv(p, SendSlot(p, st, lo, force, draws[lo], now), lo + 1, hi, force, draws, now);
    }
  }

  lemma SendRangeInvStep(p: Params, st: SenderState, lo: int, hi: int, force: bool,
                         draws: seq<Flip>, now: int)
    requires Inv(p, st) && st.base <= lo < hi <= |st.window| && DrawsFit(st.window, draws)
    ensures var s := SendSlot(p, st, lo, force, draws[lo], now);
            Inv(p, s) && s.base <= lo + 1 && hi <= |s.window| && DrawsFit(s.window, draws) &&
            SendRange(p, st, lo, hi, force, draws, now) == SendRange(p, s, lo + 1, hi, force, draws, now)
  {
    SendRangeStep(p, st, lo, hi, force, draws, now);
    SendSlotInv(p, st, lo, force, draws[lo], now);
  }

  /** One step of SendWindow's loop: slot lo is sent first, and the slots
      after it still carry their own messages and fit their draws. */
  lemma SendRangeStep(p: Params, st: SenderState, lo: int, hi: int, force: bool,
                      draws: seq<Flip>, now: int)
    requires 0 <= lo < hi <= |st.window| && Indexed(st.window) && DrawsFit(st.window, draws)
    ensures var s := SendSlot(p, st, lo, force, draws[lo], now);
            s.base == st.base && |s.window| == |st.window| &&
            Indexed(s.window) && DrawsFit(s.window, draws) &&
            SendRange(p, st, lo, hi, force, draws, now) == SendRange(p, s, lo + 1, hi, force, draws, now)
  {
    var s := SendSlot(p, st, lo, force, draws[lo], now);
    assert SameData(st.window, s.window);
  }

  /** What one iteration of SendWindow does to the window at slot i: no
      other slot changes; slot i is sent afterwards; without force an
      already-sent slot is left exactly as it was; a (re)sent slot is
      unacked with no timer; the read flag is never reset. */
  predicate SlotEffect(a: seq<Slot>, b: seq<Slot>, i: int, force: bool)
    requires 0 <= i < |a|
  {
    |b| == |a| &&
    (forall k :: 0 <= k < |a| && k != i ==> b[k] == a[k]) &&
    b[i].sent && (a[i].read ==> b[i].read) &&
    (!force && a[i].sent ==> b[i] == a[i]) &&
    (force || !a[i].sent ==> !b[i].acked && b[i].timer.None?)
  }

  /** What SendWindow's loop over [lo, hi) does to the window: the slots
      outside the range are unchanged; every slot inside is sent; without
      force an already-sent slot is left exactly as it was; every slot it
      (re)sends is unacked with no timer, even one that was acked; read
      flags are never reset. */
  predicate RangeEffect(a: seq<Slot>, b: seq<Slot>, lo: int, hi: int, force: bool) {
    ReadKept(a, b) &&
    (forall k :: 0 <= k < |a| && !(lo <= k < hi) ==> b[k] == a[k]) &&
    (forall k :: lo <= k < hi && 0 <= k < |a| ==> b[k].sent) &&
    (forall k :: lo <= k < hi && 0 <= k < |a| && !force && a[k].sent ==> b[k] == a[k]) &&
    (forall k :: lo <= k < hi && 0 <= k < |a| && (force || !a[k].sent) ==>
                   !b[k].acked && b[k].timer.None?)
  }

  lemma SendSlotEffect(p: Params, st: SenderState, i: int, force: bool, draw: Flip, now: int)
    requires 0 <= i < |st.window| && st.window[i].data.id == i && DrawFits(st.window[i], draw)
    ensures SlotEffect(st.window, SendSlot(p, st, i, force, draw, now).window, i, force)
  {
  }

  /** The first slot of a range followed by the rest of it covers the range. */
  lemma RangeEffectStep(a: seq<Slot>, s: seq<Slot>, b: seq<Slot>, lo: int, hi: int, force: bool)
    requires 0 <= lo < hi <= |a| && SlotEffect(a, s, lo, force) && RangeEffect(s, b, lo + 1, hi, force)
    ensures RangeEffect(a, b, lo, hi, force)
  {
    assert b[lo] == s[lo];
  }

  /** SendWindow's effect on the window, slot by slot. */
  lemma {:induction false} SendRangeEffects(p: Params, st: SenderState, lo: int, hi: int, force: bool,
                                            draws: seq<Flip>, now: int)
    requires 0 <= lo && hi <= |st.window| && Indexed(st.window) && DrawsFit(st.window, draws)
    ensures RangeEffect(st.window, SendRange(p, st, lo, hi, force, draws, now).window, lo, hi, force)
    decreases hi - lo
  {
    if hi > lo {
      SendRangeStep(p, st, lo, hi, force, draws, now);
      var s := SendSlot(p, st, lo, force, draws[lo], now);
      SendSlotEffect(p, st, lo, force, draws[lo], now);
      SendRangeEffects(p, s, lo + 1, hi, force, draws, now);
      RangeEffectStep(st.window, s.window, SendRange(p, s, lo + 1, hi, force, draws, now).window,
                      lo, hi, force);
    }
  }

  /** Without force, a window whose slots are all sent is left as it is. */
  lemma SendRangeAllSent(p: Params, st: SenderState, lo: int, hi: int, draws: seq<Flip>, now: int)
    requires 0 <= lo && hi <= |st.window| && Indexed(st.window) && DrawsFit(st.window, draws)
    requires forall k :: lo <= k < hi ==> st.window[k].sent
    ensures SendRange(p, st, lo, hi, false, draws, now) == st
    decreases hi - lo
  {
    if hi > lo {
      assert SendSlot(p, st, lo, false, draws[lo], now) == st;
      SendRangeAllSent(p, st, lo + 1, hi, draws, now);
    }
  }

  /** ACK handling: the acked slot is acked with a null timer; an ACK off
      the base changes no other slot and leaves the base; an ACK at the base
      ends the simulation exactly when every slot is then acked, leaving
      the window and the base, and otherwise moves the base to
      min(base + 1, n - 1) without ending it; the base never decreases and
      stays a slot index; read flags are kept; the invariant is kept. */
  lemma AckEffects(p: Params, st: SenderState, ackNum: int, draws: seq<Flip>, now: int)
    requires Inv(p, st) && 0 <= ackNum < |st.window| && DrawsFit(st.window, draws)
    ensures var r := OnAck(p, st, ackNum, draws, now);
            Inv(p, r) && ReadKept(st.window, r.window) &&
            st.base <= r.base <= |st.window| - 1 &&
            r.window[ackNum].acked && r.window[ackNum].timer.None? &&
            (ackNum != st.base ==>
               r.window == AckedWindow(st, ackNum) && r.base == st.base &&
               Extends(st.link.log, r.link.log) && NoEndAfter(st.link.log, r.link.log)) &&
            (ackNum == st.base && AllAcked(AckedWindow(st, ackNum)) ==>
               r.window == AckedWindow(st, ackNum) && r.base == st.base &&
               |r.link.log| > 0 && r.link.log[|r.link.log| - 1] == EndSimulation) &&
            (ackNum == st.base && !AllAcked(AckedWindow(st, ackNum)) ==>
               r.base == Min(st.base + 1, |st.window| - 1) &&
               RangeEffect(AckedWindow(st, ackNum), r.window, r.base, WindowEnd(p, r), false) &&
               Extends(st.link.log, r.link.log) && NoEndAfter(st.link.log, r.link.log))
  {
    AckInv(p, st, ackNum, draws, now);
    AckLog(p, st, ackNum, draws, now);
  }

  lemma AckedStateInv(p: Params, st: SenderState, ackNum: int)
    requires Inv(p, st) && 0 <= ackNum < |st.window|
    ensures Inv(p, AckedState(st, ackNum))
    ensures Extends(st.link.log, AckedState(st, ackNum).link.log)
    ensures NoEndAfter(st.link.log, AckedState(st, ackNum).link.log)
  {
    var s0 := st.(window := st.window[ackNum := st.window[ackNum].(acked := true)]);
    assert TimersOk(s0);
    CancelInv(p, s0, ackNum);
  }

  lemma AckInv(p: Params, st: SenderState, ackNum: int, draws: seq<Flip>, now: int)
    requires Inv(p, st) && 0 <= ackNum < |st.window| && DrawsFit(st.window, draws)
    ensures var r := OnAck(p, st, ackNum, draws, now);
            Inv(p, r) && ReadKept(st.window, r.window) &&
            st.base <= r.base <= |st.window| - 1 &&
            r.window[ackNum].acked && r.window[ackNum].timer.None? &&
            (ackNum != st.base || AllAcked(AckedWindow(st, ackNum)) ==>
               r.window == AckedWindow(st, ackNum) && r.base == st.base)
  {
    AckedStateInv(p, st, ackNum);
    var s1 := AckedState(st, ackNum);
    if ackNum != st.base {
      assert OnAck(p, st, ackNum, draws, now) == s1;
    } else if AllAcked(s1.window) {
      AckEndCase(p, st, ackNum, draws, now);
    } else {
      AckAdvanceCase(p, st, ackNum, draws, now);
    }
  }

  lemma AckEndCase(p: Params, st: SenderState, ackNum: int, draws: seq<Flip>, now: int)
    requires Inv(p, st) && 0 <= ackNum < |st.window| && DrawsFit(st.window, draws)
    requires ackNum == st.base && AllAcked(AckedWindow(st, ackNum))
    ensures var r := OnAck(p, st, ackNum, draws, now);
            var s1 := AckedState(st, ackNum);
            r == s1.(link := s1.link.(log := s1.link.log + [EndSimulation])) && Inv(p, r)
  {
    AckedStateInv(p, st, ackNum);
    var s1 := AckedState(st, ackNum);
    ArmedStep(s1.link.log, EndSimulation);
  }

  /** The state an ACK at the base leaves before SendWindow runs. */
  function Advanced(st: SenderState, ackNum: int): SenderState
    requires 0 <= ackNum < |st.window|
  {
    AckedState(st, ackNum).(base := Min(ackNum + 1, |st.window| - 1))
  }

  lemma AdvancedInv(p: Params, st: SenderState, ackNum: int, draws: seq<Flip>)
    requires Inv(p, st) && 0 <= ackNum < |st.window| && DrawsFit(st.window, draws)
    requires ackNum == st.base
    ensures var s2 := Advanced(st, ackNum);
            Inv(p, s2) && DrawsFit(s2.window, draws) && s2.window == AckedWindow(st, ackNum) &&
            Extends(st.link.log, s2.link.log) && NoEndAfter(st.link.log, s2.link.log)
  {
    AckedStateInv(p, st, ackNum);
  }

  lemma AckAdvanceIs(p: Params, st: SenderState, ackNum: int, draws: seq<Flip>, now: int)
    requires Inv(p, st) && 0 <= ackNum < |st.window| && DrawsFit(st.window, draws)
    requires ackNum == st.base && !AllAcked(AckedWindow(st, ackNum))
    ensures DrawsFit(Advanced(st, ackNum).window, draws)
    ensures OnAck(p, st, ackNum, draws, now) == WindowSent(p, Advanced(st, ackNum), false, draws, now)
  {
    AdvancedInv(p, st, ackNum, draws);
  }

  lemma AckAdvanceCase(p: Params, st: SenderState, ackNum: int, draws: seq<Flip>, now: int)
    requires Inv(p, st) && 0 <= ackNum < |st.window| && DrawsFit(st.window, draws)
    requires ackNum == st.base && !AllAcked(AckedWindow(st, ackNum))
    ensures var r := OnAck(p, st, ackNum, draws, now);
            Inv(p, r) && ReadKept(st.window, r.window) &&
            r.base == Min(st.base + 1, |st.window| - 1) &&
            r.window[ackNum].acked && r.window[ackNum].timer.None? &&
            RangeEffect(AckedWindow(st, ackNum), r.window, r.base, WindowEnd(p, r), false) &&
            Extends(st.link.log, r.link.log) && NoEndAfter(st.link.log, r.link.log)
  {
    AdvancedInv(p, st, ackNum, draws);
    AckAdvanceIs(p, st, ackNum, draws, now);
    var s2 := Advanced(st, ackNum);
    SendRangeInv(p, s2, s2.base, WindowEnd(p, s2), false, draws, now);
    SendRangeLog(p, s2, s2.base, WindowEnd(p, s2), false, draws, now);
    ExtendsTrans(st.link.log, s2.link.log, WindowSent(p, s2, false, draws, now).link.log);
    AckAdvanceSends(p, st, ackNum, draws, now);
  }

  /** An ACK at the base that leaves some slot unacked is not for the last
      slot: the unacked slot lies above the base. */
  lemma BaseBelowUnacked(p: Params, st: SenderState, ackNum: int)
    requires Inv(p, st) && 0 <= ackNum < |st.window|
    requires ackNum == st.base && !AllAcked(AckedWindow(st, ackNum))
    ensures ackNum < |st.window| - 1
  {
    var w := AckedWindow(st, ackNum);
    var k :| 0 <= k < |w| && !w[k].acked;
    assert k > ackNum;
  }

  /** After an ACK at the base that does not end the run, SendWindow(false)
      sends the advanced window; the acked slot, now below the base, keeps
      its null timer. */
  lemma AckAdvanceSends(p: Params, st: SenderState, ackNum: int, draws: seq<Flip>, now: int)
    requires Inv(p, st) && 0 <= ackNum < |st.window| && DrawsFit(st.window, draws)
    requires ackNum == st.base && !AllAcked(AckedWindow(st, ackNum))
    ensures var r := OnAck(p, st, ackNum, draws, now);
            |r.window| == |st.window| && r.base == Min(st.base + 1, |st.window| - 1) &&
            r.window[ackNum].acked && r.window[ackNum].timer.None? &&
            RangeEffect(AckedWindow(st, ackNum), r.window, r.base, WindowEnd(p, r), false)
  {
    AckAdvanceIs(p, st, ackNum, draws, now);
    AdvancedSends(p, st, ackNum, draws, now);
  }

  lemma AdvancedSends(p: Params, st: SenderState, ackNum: int, draws: seq<Flip>, now: int)
    requires Inv(p, st) && 0 <= ackNum < |st.window| && DrawsFit(st.window, draws)
    requires ackNum == st.base && !AllAcked(AckedWindow(st, ackNum))
    ensures DrawsFit(Advanced(st, ackNum).window, draws)
    ensures var s2 := Advanced(st, ackNum);
            var r := WindowSent(p, s2, false, draws, now);
            |r.window| == |st.window| && r.base == s2.base && s2.window == AckedWindow(st, ackNum) &&
            r.window[ackNum] == s2.window[ackNum] &&
            RangeEffect(s2.window, r.window, s2.base, WindowEnd(p, s2), false)
  {
    AdvancedInv(p, st, ackNum, draws);
    var s2 := Advanced(st, ackNum);
    SendRangeEffects(p, s2, s2.base, WindowEnd(p, s2), false, draws, now);
    SendRangeKeeps(p, s2, s2.base, WindowEnd(p, s2), false, draws, now);
    BaseBelowUnacked(p, st, ackNum);
  }

  lemma AckLog(p: Params, st: SenderState, ackNum: int, draws: seq<Flip>, now: int)
    requires Inv(p, st) && 0 <= ackNum < |st.window| && DrawsFit(st.window, draws)
    ensures var r := OnAck(p, st, ackNum, draws, now);
            (ackNum != st.base ==> Extends(st.link.log, r.link.log) && NoEndAfter(st.link.log, r.link.log)) &&
            (ackNum == st.base && AllAcked(AckedWindow(st, ackNum)) ==>
               |r.link.log| > 0 && r.link.log[|r.link.log| - 1] == EndSimulation) &&
            (ackNum == st.base && !AllAcked(AckedWindow(st, ackNum)) ==>
               r.base == Min(st.base + 1, |st.window| - 1) &&
               RangeEffect(AckedWindow(st, ackNum), r.window, r.base, WindowEnd(p, r), false) &&
               Extends(st.link.log, r.link.log) && NoEndAfter(st.link.log, r.link.log))
  {
    if ackNum != st.base {
      AckedStateInv(p, st, ackNum);
    } else if AllAcked(AckedWindow(st, ackNum)) {
      AckEndCase(p, st, ackNum, draws, now);
    } else {
      AckAdvanceCase(p, st, ackNum, draws, now);
    }
  }

  lemma ConcatAssoc(a: seq<Call>, b: seq<Call>, c: seq<Call>)
    ensures (a + b) + c == a + (b + c)
  {
  }

  lemma ExtendsTrans(a: seq<Call>, b: seq<Call>, c: seq<Call>)
    requires Extends(a, b) && Extends(b, c) && NoEndAfter(a, b) && NoEndAfter(b, c)
    ensures Extends(a, c) && NoEndAfter(a, c)
  {
    assert c[..|b|][..|a|] == c[..|a|];
    forall k | |a| <= k < |c|
      ensures c[k] != EndSimulation
    {
      if k < |b| {
        assert c[k] == c[..|b|][k];
      }
    }
  }

  /** The log only grows. */
  predicate Extends(a: seq<Call>, b: seq<Call>) {
    |b| >= |a| && b[..|a|] == a
  }

  /** What a log gained after a: no EndSimulation among it. */
  predicate NoEndAfter(a: seq<Call>, b: seq<Call>)
    requires Extends(a, b)
  {
    forall k :: |a| <= k < |b| ==> b[k] != EndSimulation
  }

  /** The frame a slot goes out as: a DATA frame with the slot's sequence
      number, its message id as ackNum and as context id, and the stuffed
      payload whose parity is taken before any bit is flipped. */
  function SlotFrame(w: Slot, draw: Flip): Context
    requires w.data.id >= 0 && DrawFits(w, draw)
  {
    FrameLengthIs(w.data.text);
    Prepared(NewContext(Packet(DATA, w.seqNum, w.data.id, CStr(w.data.text), -1), Some(w.data.id)),
             Some(w.data.flags), Some(draw))
  }

  lemma SlotFrameIs(w: Slot, draw: Flip)
    requires w.data.id >= 0 && DrawFits(w, draw)
    ensures var r := SlotFrame(w, draw);
            r.packet.frameType == DATA && r.packet.seqNum == w.seqNum && r.packet.ackNum == w.data.id &&
            r.msgId == Some(w.data.id) && !r.ackLost
    ensures !w.data.flags.modification ==>
              var r := SlotFrame(w, draw);
              r.packet.payload == Encoded(CStr(w.data.text)) &&
              r.packet.parity == Parity(Encoded(CStr(w.data.text))) && r.modifiedBitIdx == -1
  {
    EncodedShape(CStr(w.data.text));
  }

  /** The frame SendSlot hands to the pipeline is the slot's SlotFrame. */
  lemma SlotFrameOf(window: seq<Slot>, i: int, draw: Flip)
    requires 0 <= i < |window| && window[i].data.id == i && DrawFits(window[i], draw)
    ensures FlipReady(NewContext(Outgoing(window, window[i].data), Some(i)), Some(window[i].data.flags), Some(draw))
    ensures Prepared(NewContext(Outgoing(window, window[i].data), Some(i)), Some(window[i].data.flags), Some(draw)) ==
            SlotFrame(window[i], draw)
  {
    FrameLengthIs(window[i].data.text);
    var w := window[i];
    assert Outgoing(window, w.data) == Packet(DATA, w.seqNum, i, CStr(w.data.text), -1);
  }

  lemma SendSlotLog(p: Params, st: SenderState, i: int, force: bool, draw: Flip, now: int)
    requires 0 <= i < |st.window| && st.window[i].data.id == i && DrawFits(st.window[i], draw)
    ensures var r := SendSlot(p, st, i, force, draw, now);
            Extends(st.link.log, r.link.log) && NoEndAfter(st.link.log, r.link.log)
  {
    var w := st.window[i];
    if force || !w.sent {
      var s1 := CancelSlot(st.(window := st.window[i := w.(sent := true, acked := false)]), i);
      var ctx := NewContext(Outgoing(s1.window, s1.window[i].data), Some(i));
      FrameLengthIs(w.data.text);
      HandedLog(p, s1, ctx, i, draw, now);
      ExtendsTrans(st.link.log, s1.link.log, Handed(p, s1, ctx, i, draw, now).link.log);
    }
  }

  /** The calls sending one slot makes: cancel the timer it holds, then
      schedule the post-process of its frame with the StartTimer hook for
      when processing ends, and the MarkRead pre-process 500 ms before it
      when that is still ahead. */
  function SlotCalls(p: Params, w: Slot, frame: Context, cursor: int, now: int): seq<Call>
    requires w.data.id >= 0
  {
    (if w.timer.Some? then [CancelEvent(w.timer.value)] else []) +
    ScheduleCalls(frame, Some(StartTimer(w.data.id)), Some(MarkRead(w.data.id)),
                  now, NextCursor(p, cursor, now) - now)
  }

  /** The frame of every slot, given its draws. */
  function SlotFrames(window: seq<Slot>, draws: seq<Flip>): (r: seq<Context>)
    requires Indexed(window) && DrawsFit(window, draws)
    ensures |r| == |window|
  {
    seq(|window|, k requires 0 <= k < |window| => SlotFrame(window[k], draws[k]))
  }

  /** A slot's frame depends only on its sequence number and message. */
  lemma SlotFrameFields(a: Slot, b: Slot, draw: Flip)
    requires a.data.id >= 0 && DrawFits(a, draw) && a.seqNum == b.seqNum && a.data == b.data
    ensures DrawFits(b, draw) && SlotFrame(a, draw) == SlotFrame(b, draw)
  {
  }

  lemma FramesKept(a: seq<Slot>, b: seq<Slot>, draws: seq<Flip>)
    requires Indexed(a) && DrawsFit(a, draws) && |b| == |a|
    requires forall k :: 0 <= k < |a| ==> a[k].seqNum == b[k].seqNum && a[k].data == b[k].data
    ensures Indexed(b) && DrawsFit(b, draws) && SlotFrames(a, draws) == SlotFrames(b, draws)
  {
    forall k | 0 <= k < |a|
      ensures b[k].data.id == k && DrawFits(b[k], draws[k]) && SlotFrame(a[k], draws[k]) == SlotFrame(b[k], draws[k])
    {
      SlotFrameFields(a[k], b[k], draws[k]);
    }
  }

  /** One iteration of SendWindow on the transceiver: a skipped slot adds
      nothing; a (re)sent slot adds exactly its SlotCalls and moves the
      cursor to the end of its processing. */
  lemma SendSlotCalls(p: Params, st: SenderState, i: int, force: bool, draw: Flip, now: int)
    requires 0 <= i < |st.window| && st.window[i].data.id == i && DrawFits(st.window[i], draw)
    ensures !force && st.window[i].sent ==> SendSlot(p, st, i, force, draw, now).link == st.link
    ensures force || !st.window[i].sent ==>
              SendSlot(p, st, i, force, draw, now).link ==
                Link(NextCursor(p, st.link.cursor, now),
                     st.link.log + SlotCalls(p, st.window[i], SlotFrame(st.window[i], draw), st.link.cursor, now))
  {
    var w := st.window[i];
    if force || !w.sent {
      var s1 := CancelSlot(st.(window := st.window[i := w.(sent := true, acked := false)]), i);
      var cancel: seq<Call> := if w.timer.Some? then [CancelEvent(w.timer.value)] else [];
      assert s1.link == Link(st.link.cursor, st.link.log + cancel);
      var ctx := NewContext(Outgoing(st.window, w.data), Some(i));
      SlotFrameOf(st.window, i, draw);
      SendSlotUnfold(p, st, i, force, draw, now);
      HandedLog(p, s1, ctx, i, draw, now);
      ConcatAssoc(st.link.log, cancel, ScheduleCalls(SlotFrame(w, draw), Some(StartTimer(i)), Some(MarkRead(i)),
                                                     now, NextCursor(p, st.link.cursor, now) - now));
    }
  }

  /** A slot that is (re)sent is marked, its timer cancelled, and its
      frame handed to the pipeline. */
  lemma SendSlotUnfold(p: Params, st: SenderState, i: int, force: bool, draw: Flip, now: int)
    requires 0 <= i < |st.window| && st.window[i].data.id == i && DrawFits(st.window[i], draw)
    requires force || !st.window[i].sent
    ensures FlipReady(NewContext(Outgoing(st.window, st.window[i].data), Some(i)), Some(st.window[i].data.flags), Some(draw))
    ensures var w := st.window[i];
            var s1 := CancelSlot(st.(window := st.window[i := w.(sent := true, acked := false)]), i);
            SendSlot(p, st, i, force, draw, now) ==
              Handed(p, s1, NewContext(Outgoing(st.window, w.data), Some(i)), i, draw, now)
  {
    var w := st.window[i];
    var s1 := CancelSlot(st.(window := st.window[i := w.(sent := true, acked := false)]), i);
    FrameLengthIs(w.data.text);
    assert Outgoing(s1.window, s1.window[i].data) == Outgoing(st.window, w.data);
  }

  /** Handing a frame to the pipeline only schedules its two callbacks:
      the post-process with StartTimer when processing ends, the MarkRead
      pre-process 500 ms before (or at once); the cursor moves to the end. */
  lemma HandedLog(p: Params, st: SenderState, ctx: Context, i: int, draw: Flip, now: int)
    requires 0 <= i < |st.window| && FlipReady(ctx, Some(st.window[i].data.flags), Some(draw))
    ensures var r := Handed(p, st, ctx, i, draw, now);
            Extends(st.link.log, r.link.log) && NoEndAfter(st.link.log, r.link.log)
    ensures var end := Max(st.link.cursor, now) + p.processingTime;
            Handed(p, st, ctx, i, draw, now).link ==
              Link(end, st.link.log + ScheduleCalls(Prepared(ctx, Some(st.window[i].data.flags), Some(draw)),
                                                    Some(StartTimer(i)), Some(MarkRead(i)), now, end - now))
  {
    var c := Prepared(ctx, Some(st.window[i].data.flags), Some(draw));
    PipelineCalls(p, st.link, c, Some(StartTimer(i)), Some(MarkRead(i)), now);
  }

  /** SendWindow never ends the simulation, and only appends to the log. */
  lemma {:induction false} SendRangeLog(p: Params, st: SenderState, lo: int, hi: int, force: bool,
                                        draws: seq<Flip>, now: int)
    requires 0 <= lo && hi <= |st.window| && Indexed(st.window) && DrawsFit(st.window, draws)
    ensures var r := SendRange(p, st, lo, hi, force, draws, now);
            Extends(st.link.log, r.link.log) && NoEndAfter(st.link.log, r.link.log)
    decreases hi - lo
  {
    if hi > lo {
      SendRangeStep(p, st, lo, hi, force, draws, now);
      var s := SendSlot(p, st, lo, force, draws[lo], now);
      SendSlotLog(p, st, lo, force, draws[lo], now);
      SendRangeLog(p, s, lo + 1, hi, force, draws, now);
      ExtendsTrans(st.link.log, s.link.log, SendRange(p, s, lo + 1, hi, force, draws, now).link.log);
    }
  }

  /** What SendWindow's loop over [lo, hi) adds to the kernel log, slot
      by slot in order, starting with the serialization cursor at cursor:
      nothing for a skipped slot, the slot's calls with its frame for a
      (re)sent one, each frame queued behind the one before it. */
  function RangeCalls(p: Params, window: seq<Slot>, frames: seq<Context>, lo: int, hi: int, force: bool,
                      cursor: int, now: int): seq<Call>
    requires 0 <= lo && hi <= |window| == |frames| && Indexed(window)
    decreases hi - lo
  {
    if hi <= lo then []
    else if !force && window[lo].sent then RangeCalls(p, window, frames, lo + 1, hi, force, cursor, now)
    else
      SlotCalls(p, window[lo], frames[lo], cursor, now) +
      RangeCalls(p, window, frames, lo + 1, hi, force, NextCursor(p, cursor, now), now)
  }

  /** RangeCalls reads only the slots of its range. */
  lemma {:induction false} RangeCallsAgree(p: Params, a: seq<Slot>, b: seq<Slot>, frames: seq<Context>,
                                           lo: int, hi: int, force: bool, cursor: int, now: int)
    requires 0 <= lo && hi <= |a| == |b| == |frames| && Indexed(a) && Indexed(b)
    requires forall k :: lo <= k < hi ==> a[k] == b[k]
    ensures RangeCalls(p, a, frames, lo, hi, force, cursor, now) == RangeCalls(p, b, frames, lo, hi, force, cursor, now)
    decreases hi - lo
  {
    if hi > lo {
      RangeCallsAgree(p, a, b, frames, lo + 1, hi, force, cursor, now);
      RangeCallsAgree(p, a, b, frames, lo + 1, hi, force, NextCursor(p, cursor, now), now);
    }
  }

  /** SendWindow's loop over [lo, hi) appends exactly RangeCalls to the
      log: for every slot it (re)sends, in slot order, the cancel of the
      timer the slot holds, the post-process of the slot's DATA frame with
      its StartTimer hook and the MarkRead pre-process; nothing for a
      skipped slot, and no other call. */
  lemma {:induction false} SendRangeCalls(p: Params, st: SenderState, lo: int, hi: int, force: bool,
                                          draws: seq<Flip>, now: int)
    requires 0 <= lo && hi <= |st.window| && Indexed(st.window) && DrawsFit(st.window, draws)
    ensures SendRange(p, st, lo, hi, force, draws, now).link.log ==
            st.link.log + RangeCalls(p, st.window, SlotFrames(st.window, draws), lo, hi, force, st.link.cursor, now)
    decreases hi - lo
  {
    if hi > lo {
      SendRangeStep(p, st, lo, hi, force, draws, now);
      var s := SendSlot(p, st, lo, force, draws[lo], now);
      SendSlotCalls(p, st, lo, force, draws[lo], now);
      SendRangeCalls(p, s, lo + 1, hi, force, draws, now);
      FramesKept(st.window, s.window, draws);
      RangeCallsJoin(p, st, s, SendRange(p, s, lo + 1, hi, force, draws, now), SlotFrames(st.window, draws),
                     lo, hi, force, now);
    }
  }

  /** The first slot's calls followed by the rest of the range's calls are
      the range's calls. */
  lemma RangeCallsJoin(p: Params, st: SenderState, s: SenderState, r: SenderState, frames: seq<Context>,
                       lo: int, hi: int, force: bool, now: int)
    requires 0 <= lo < hi <= |st.window| == |s.window| == |frames| && Indexed(st.window) && Indexed(s.window)
    requires forall k :: 0 <= k < |st.window| && k != lo ==> s.window[k] == st.window[k]
    requires !force && st.window[lo].sent ==> s.link == st.link
    requires force || !st.window[lo].sent ==>
               s.link == Link(NextCursor(p, st.link.cursor, now),
                              st.link.log + SlotCalls(p, st.window[lo], frames[lo], st.link.cursor, now))
    requires r.link.log == s.link.log + RangeCalls(p, s.window, frames, lo + 1, hi, force, s.link.cursor, now)
    ensures r.link.log == st.link.log + RangeCalls(p, st.window, frames, lo, hi, force, st.link.cursor, now)
  {
    RangeCallsAgree(p, s.window, st.window, frames, lo + 1, hi, force, s.link.cursor, now);
    if force || !st.window[lo].sent {
      ConcatAssoc(st.link.log, SlotCalls(p, st.window[lo], frames[lo], st.link.cursor, now),
                  RangeCalls(p, st.window, frames, lo + 1, hi, force, s.link.cursor, now));
    }
  }

  /** A frame at the sender: an ACK is handled as above; a NACK and any
      other frame type leave the whole state as it was. */
  lemma FrameEffects(p: Params, st: SenderState, pkt: Packet, draws: seq<Flip>, now: int)
    requires Inv(p, st) && DrawsFit(st.window, draws)
    requires pkt.frameType == ACK ==> 0 <= pkt.ackNum < |st.window|
    ensures var r := OnFrame(p, st, pkt, draws, now);
            Inv(p, r) && ReadKept(st.window, r.window) && SameData(st.window, r.window) &&
            DrawsFit(r.window, draws) && st.base <= r.base &&
            (pkt.frameType != ACK ==> r == st) &&
            (pkt.frameType == ACK ==> r.window[pkt.ackNum].acked)
  {
    if pkt.frameType == ACK {
      AckInv(p, st, pkt.ackNum, draws, now);
      AckKeepsData(p, st, pkt.ackNum, draws, now);
    }
  }

  /** Every slot keeps its message across an ACK. */
  lemma AckKeepsData(p: Params, st: SenderState, ackNum: int, draws: seq<Flip>, now: int)
    requires 0 <= ackNum < |st.window| && 0 <= st.base && Indexed(st.window) && DrawsFit(st.window, draws)
    ensures SameData(st.window, OnAck(p, st, ackNum, draws, now).window)
  {
    var s1 := AckedState(st, ackNum);
    if ackNum == st.base && !AllAcked(s1.window) {
      var s2 := Advanced(st, ackNum);
      assert SameData(st.window, s2.window);
      SendRangeKeeps(p, s2, s2.base, WindowEnd(p, s2), false, draws, now);
      var r := WindowSent(p, s2, false, draws, now);
      assert r == OnAck(p, st, ackNum, draws, now);
    }
  }

  /** A timeout: ignored for a null message, an acked slot or a slot outside
      [base, base + WS); otherwise that one message loses all four fault
      flags (its text and every other message are kept) and the whole
      window [base, min(base + WS, n)) is sent again, unacked and untimed,
      with the base unchanged. The invariant and the read flags are kept. */
  lemma TimeoutEffects(p: Params, st: SenderState, id: Option<int>, draws: seq<Flip>, now: int)
    requires Inv(p, st) && DrawsFit(st.window, draws)
    requires id.Some? ==> 0 <= id.value < |st.window|
    ensures var r := OnTimeout(p, st, id, draws, now);
            Inv(p, r) && ReadKept(st.window, r.window) && DrawsFit(r.window, draws) &&
            r.base == st.base &&
            (id.None? || st.window[id.value].acked || !InWindow(p, st, id.value) ==> r == st) &&
            (id.Some? && !st.window[id.value].acked && InWindow(p, st, id.value) ==>
               r.window[id.value].data == st.window[id.value].data.(flags := NoFaults) &&
               (forall k :: 0 <= k < |st.window| && k != id.value ==> r.window[k].data == st.window[k].data) &&
               (forall k :: 0 <= k < |st.window| && !(st.base <= k < WindowEnd(p, st)) ==>
                              r.window[k] == st.window[k]) &&
               (forall k :: st.base <= k < WindowEnd(p, st) ==>
                              r.window[k].sent && !r.window[k].acked && r.window[k].timer.None?))
  {
    if id.Some? && !st.window[id.value].acked && InWindow(p, st, id.value) {
      TimeoutResend(p, st, id.value, draws, now);
    }
  }

  lemma TimeoutResend(p: Params, st: SenderState, i: int, draws: seq<Flip>, now: int)
    requires Inv(p, st) && DrawsFit(st.window, draws)
    requires 0 <= i < |st.window| && !st.window[i].acked && InWindow(p, st, i)
    ensures var r := WindowSent(p, Cleared(st, i), true, draws, now);
            r == OnTimeout(p, st, Some(i), draws, now) &&
            Inv(p, r) && ReadKept(st.window, r.window) && DrawsFit(r.window, draws) &&
            r.base == st.base &&
            r.window[i].data == st.window[i].data.(flags := NoFaults) &&
            (forall k :: 0 <= k < |st.window| && k != i ==> r.window[k].data == st.window[k].data) &&
            (forall k :: 0 <= k < |st.window| && !(st.base <= k < WindowEnd(p, st)) ==>
                           r.window[k] == st.window[k]) &&
            (forall k :: st.base <= k < WindowEnd(p, st) ==>
                           r.window[k].sent && !r.window[k].acked && r.window[k].timer.None?)
  {
    ClearedInv(p, st, i, draws);
    var s1 := Cleared(st, i);
    SendRangeInv(p, s1, s1.base, WindowEnd(p, s1), true, draws, now);
    SendRangeEffects(p, s1, s1.base, WindowEnd(p, s1), true, draws, now);
    SendRangeKeeps(p, s1, s1.base, WindowEnd(p, s1), true, draws, now);
  }

  /** The timed-out message with its fault flags cleared. */
  function Cleared(st: SenderState, i: int): (r: SenderState)
    requires 0 <= i < |st.window|
    ensures |r.window| == |st.window| && r.base == st.base && r.link == st.link && r.nextHandle == st.nextHandle
    ensures r.window[i].data.flags == NoFaults
    ensures r.window[i].data.text == st.window[i].data.text && r.window[i].data.id == st.window[i].data.id
    ensures r.window[i].(data := st.window[i].data) == st.window[i]
    ensures forall k :: 0 <= k < |st.window| && k != i ==> r.window[k] == st.window[k]
  {
    st.(window := st.window[i := st.window[i].(data := st.window[i].data.(flags := NoFaults))])
  }

  lemma ClearedInv(p: Params, st: SenderState, i: int, draws: seq<Flip>)
    requires Inv(p, st) && DrawsFit(st.window, draws) && 0 <= i < |st.window|
    ensures Inv(p, Cleared(st, i)) && DrawsFit(Cleared(st, i).window, draws)
  {
    assert TimersOk(Cleared(st, i));
  }

  /** The post-process arms exactly one timer for the slot, the fresh one,
      and changes no other slot; the invariant is kept. */
  lemma PostProcessEffects(p: Params, st: SenderState, ctx: Context, i: int, now: int)
    requires Inv(p, st) && 0 <= i < |st.window|
    ensures var r := PostProcessed(p, st, ctx, i, now);
            r.link.log == StartSlotTimer(p, st, i, now).link.log +
                          DeliveryCalls(p, ctx, Some(st.window[i].data.flags), now) &&
            (st.window[i].data.flags.loss ==> r.link.log == StartSlotTimer(p, st, i, now).link.log)
    ensures var r := PostProcessed(p, st, ctx, i, now);
            Inv(p, r) && r.base == st.base &&
            r.window == st.window[i := st.window[i].(timer := Some(st.nextHandle))] &&
            (forall h :: h in Armed(r.link.log) && Armed(r.link.log)[h] == i ==> h == st.nextHandle) &&
            st.nextHandle in Armed(r.link.log)
  {
    StartInv(p, st, i, now);
    var s := StartSlotTimer(p, st, i, now);
    var extra := DeliveryCalls(p, ctx, Some(s.window[i].data.flags), now);
    Deliveries(p, ctx, Some(s.window[i].data.flags), now);
    QuietInv(p, s, s.link.cursor, extra);
    ArmedQuiet(s.link.log, extra);
  }

  /** The pre-process sets the read flag and keeps everything else. */
  lemma PreProcessEffects(p: Params, st: SenderState, i: int)
    requires Inv(p, st) && 0 <= i < |st.window|
    ensures var r := ReadSlot(st, i);
            Inv(p, r) && ReadKept(st.window, r.window) && r.window[i].read &&
            r.link == st.link && r.base == st.base
  {
    ReadSlotInv(p, st, i);
  }

  /** With three messages and a window of three, ACKs arriving in the order
      1, 0, 2 leave every slot acked with the base at 1 and the simulation
      not ended: only an ACK at the base runs the all-acked scan, and the
      ACK for slot 2 arrives after the base has moved to 1. */
  lemma OutOfOrderAcksDoNotEnd(p: Params, st: SenderState, draws: seq<Flip>, now: int)
    requires Inv(p, st) && DrawsFit(st.window, draws)
    requires |st.window| == 3 && p.windowSize == 3 && st.base == 0
    requires forall k :: 0 <= k < 3 ==> st.window[k].sent && !st.window[k].acked
    ensures var r1 := OnAck(p, st, 1, draws, now);
            var r2 := OnAck(p, r1, 0, draws, now);
            var r3 := OnAck(p, r2, 2, draws, now);
            AllAcked(r3.window) && r3.base == 1 &&
            Extends(st.link.log, r3.link.log) && NoEndAfter(st.link.log, r3.link.log)
  {
    AckEffects(p, st, 1, draws, now);
    var r1 := OnAck(p, st, 1, draws, now);
    assert r1.window[2] == st.window[2];
    AckEffects(p, r1, 0, draws, now);
    AckAdvanceIs(p, r1, 0, draws, now);
    var s2 := Advanced(r1, 0);
    SendRangeAllSent(p, s2, s2.base, WindowEnd(p, s2), draws, now);
    var r2 := OnAck(p, r1, 0, draws, now);
    assert r2 == s2;
    AckEffects(p, r2, 2, draws, now);
    var r3 := OnAck(p, r2, 2, draws, now);
    ExtendsTrans(st.link.log, r1.link.log, r2.link.log);
    ExtendsTrans(st.link.log, r2.link.log, r3.link.log);
  }

  // ---------------------------------------------------------------------
  // The sender as the source runs it: fields updated in place.
  // ---------------------------------------------------------------------

  /** ConstructWindow: one slot per message, the sequence number counting
      up from 0 and wrapping to 0 when it reaches WS; also returns the next
      sequence number the counter holds afterwards. */
  method ConstructWindow(ws: int, msgs: seq<Message>) returns (w: seq<Slot>, next: int)
    requires ws >= 1
    ensures w == Constructed(ws, msgs) && next == |msgs| % ws
  {
    w := [];
    next := 0;
    for k := 0 to |msgs|
      invariant |w| == k && next == k % ws
      invariant forall j :: 0 <= j < k ==> w[j] == Slot(j % ws, msgs[j], false, false, false, None)
    {
      w := w + [Slot(next, msgs[k], false, false, false, None)];
      ModStep(k, ws);
      next := next + 1;
      if next == ws {
        next := 0;
      }
    }
  }

  class NetSender {
    const params: Params
    const link: Transceiver
    var window: seq<Slot>
    var base: int
    var nextHandle: nat

    function State(): SenderState
      reads this, link
    {
      SenderState(window, base, nextHandle, link.State())
    }

    predicate Valid()
      reads this, link
    {
      link.params == params && Inv(params, State())
    }

    /** The constructor: build the window over the node's messages and send
        the first window. */
    constructor(params: Params, msgs: seq<Message>, draws: seq<Flip>, now: int)
      requires ValidParams(params) && forall i :: 0 <= i < |msgs| ==> msgs[i].id == i
      requires DrawsFit(Constructed(params.windowSize, msgs), draws)
      ensures Valid() && fresh(link) && this.params == params
      ensures State() == WindowSent(params, SenderState(Constructed(params.windowSize, msgs), 0, 0, Link(0, [])),
                                    false, draws, now)
    {
      this.params := params;
      link := new Transceiver(params);
      var w, _ := ConstructWindow(params.windowSize, msgs);
      window := w;
      base := 0;
      nextHandle := 0;
      new;
      ConstructedInv(params, msgs);
      SendWindow(false, draws, now);
    }

    /** CancelTimer on slot i's handle. */
    method CancelTimer(i: int)
      requires 0 <= i < |window|
      modifies this, link
      ensures State() == CancelSlot(old(State()), i)
    {
      match window[i].timer
      case None =>
      case Some(h) =>
        link.CancelEvent(h);
        window := window[i := window[i].(timer := None)];
    }

    /** StartTimer on slot i. */
    method StartTimer(i: int, now: int)
      requires 0 <= i < |window|
      modifies this, link
      ensures State() == StartSlotTimer(params, old(State()), i, now)
    {
      CancelTimer(i);
      link.ScheduleTimer(now + params.timeout, nextHandle, i);
      window := window[i := window[i].(timer := Some(nextHandle))];
      nextHandle := nextHandle + 1;
    }

    /** The pre-process callback of slot i. */
    method RunPreProcess(i: int)
      requires 0 <= i < |window|
      modifies this
      ensures State() == ReadSlot(old(State()), i)
    {
      if !window[i].read {
        window := window[i := window[i].(read := true)];
      }
    }

    /** The post-process callback of slot i. */
    method RunPostProcess(ctx: Context, i: int, now: int)
      requires 0 <= i < |window| && link.params == params
      modifies this, link
      ensures State() == PostProcessed(params, old(State()), ctx, i, now)
    {
      StartTimer(i, now);
      link.Deliver(ctx, Some(window[i].data.flags), now);
    }

    /** SendPacket (NetSender) for the frame of slot i. */
    method SendPacket(ctx: Context, i: int, draw: Flip, now: int)
      requires 0 <= i < |window| && link.params == params
      requires FlipReady(ctx, Some(window[i].data.flags), Some(draw))
      modifies this, link
      ensures State() == Handed(params, old(State()), ctx, i, draw, now)
    {
      var _, preNow := link.SendPacket(ctx, Some(window[i].data.flags), Some(Hook.StartTimer(i)),
                                       Some(Hook.MarkRead(i)), now, Some(draw));
      if preNow {
        RunPreProcess(i);
      }
    }

    /** One iteration of SendWindow's loop, on slot i. */
    method SendSlotAt(i: int, force: bool, draw: Flip, now: int)
      requires 0 <= i < |window| && link.params == params
      requires window[i].data.id == i && DrawFits(window[i], draw)
      modifies this, link
      ensures State() == SendSlot(params, old(State()), i, force, draw, now)
    {
      if !force && window[i].sent {
        return;
      }
      window := window[i := window[i].(sent := true, acked := false)];
      CancelTimer(i);
      var ctx := NewContext(Outgoing(window, window[i].data), Some(i));
      FrameLengthIs(window[i].data.text);
      SendPacket(ctx, i, draw, now);
    }

    /** SendWindow(force). */
    method SendWindow(force: bool, draws: seq<Flip>, now: int)
      requires Valid() && DrawsFit(window, draws)
      modifies this, link
      ensures Valid() && DrawsFit(window, draws)
      ensures State() == WindowSent(params, old(State()), force, draws, now)
    {
      ghost var st0 := State();
      var endIdx := Min(base + params.windowSize, |window|);
      var i := base;
      ghost var cur := st0;
      while i < endIdx
        invariant 0 <= st0.base <= i <= endIdx == WindowEnd(params, st0)
        invariant cur == State() && link.params == params
        invariant |cur.window| == |st0.window| && Indexed(cur.window) && DrawsFit(cur.window, draws)
        invariant SendRange(params, cur, i, endIdx, force, draws, now) == WindowSent(params, st0, force, draws, now)
      {
        SendRangeStep(params, cur, i, endIdx, force, draws, now);
        SendSlotAt(i, force, draws[i], now);
        cur := SendSlot(params, cur, i, force, draws[i], now);
        i := i + 1;
      }
      SendRangeInv(params, st0, st0.base, endIdx, force, draws, now);
      SendRangeKeeps(params, st0, st0.base, endIdx, force, draws, now);
    }

    /** The all-acked scan. */
    method FullyAcked() returns (b: bool)
      ensures b == AllAcked(window)
    {
      var k := 0;
      while k < |window|
        invariant 0 <= k <= |window|
        invariant forall j :: 0 <= j < k ==> window[j].acked
      {
        if !window[k].acked {
          return false;
        }
        k := k + 1;
      }
      return true;
    }

    /** ReceivePacket (NetSender): ACK and NACK handling. */
    method ReceivePacket(pkt: Packet, draws: seq<Flip>, now: int)
      requires Valid() && DrawsFit(window, draws)
      requires pkt.frameType == ACK ==> 0 <= pkt.ackNum < |window|
      modifies this, link
      ensures Valid() && DrawsFit(window, draws)
      ensures State() == OnFrame(params, old(State()), pkt, draws, now)
    {
      ghost var st0 := State();
      FrameEffects(params, st0, pkt, draws, now);
      if pkt.frameType != ACK && pkt.frameType != NACK {
        return;
      }
      if pkt.frameType == ACK {
        var ackNum := pkt.ackNum;
        window := window[ackNum := window[ackNum].(acked := true)];
        CancelTimer(ackNum);
        assert State() == AckedState(st0, ackNum);
        if ackNum == base {
          var fullyAcked := FullyAcked();
          if fullyAcked {
            link.EndSimulation();
            return;
          }
          base := Min(ackNum + 1, |window| - 1);
          assert State() == Advanced(st0, ackNum);
          AdvancedInv(params, st0, ackNum, draws);
          SendWindow(false, draws, now);
        }
      }
    }

    /** ReceiveTimerEvent (NetSender): id is the timed-out message's id,
        None for a null message. */
    method ReceiveTimerEvent(id: Option<int>, draws: seq<Flip>, now: int)
      requires Valid() && DrawsFit(window, draws)
      requires id.Some? ==> 0 <= id.value < |window|
      modifies this, link
      ensures Valid() && DrawsFit(window, draws)
      ensures State() == OnTimeout(params, old(State()), id, draws, now)
    {
      ghost var st0 := State();
      TimeoutEffects(params, st0, id, draws, now);
      if id.None? {
        return;
      }
      var i := id.value;
      if window[i].acked || i < base || i >= base + params.windowSize {
        return;
      }
      window := window[i := window[i].(data := window[i].data.(flags := NoFaults))];
      assert State() == Cleared(st0, i);
      ClearedInv(params, st0, i, draws);
      SendWindow(true, draws, now);
    }
  }
}
