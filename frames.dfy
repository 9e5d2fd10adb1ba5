/** The records every endpoint of the link shares: packets, the message
    records read from the input file, the link parameters, the per-send
    transmission context, and the calls an endpoint makes into the
    discrete-event kernel. */
module Frames {
  import opened Codec

  datatype Option<T> = None | Some(value: T)

  // Frame types carried in a packet's frameType field.
  const NACK: int := 0
  const ACK: int := 1
  const DATA: int := 2

  /** A packet as sent on the wire: the payload is a C string. */
  datatype Packet = Packet(frameType: int, seqNum: int, ackNum: int, payload: CString, parity: int)

  /** The four fault flags of one input line, in file order. */
  datatype Flags = Flags(modification: bool, loss: bool, duplication: bool, delay: bool)

  const NoFaults := Flags(false, false, false, false)

  /** One line of the input file: its text, its running id and its flags. */
  datatype Message = Message(text: seq<Byte>, id: int, flags: Flags)

  /** Link parameters, all durations in whole milliseconds; lossRate is a
      percentage. */
  datatype Params = Params(windowSize: int, timeout: int, processingTime: int,
                           transmissionDelay: int, errorDelay: int,
                           duplicationDelay: int, lossRate: int)

  predicate ValidParams(p: Params) {
    p.windowSize >= 1
  }

  /** The transmission context of one send: the packet, the id of the
      message it carries (None for ACK/NACK), the index of the flipped bit
      (-1 when none) and the receiver's ackLost decision. */
  datatype Context = Context(packet: Packet, msgId: Option<nat>, modifiedBitIdx: int, ackLost: bool)

  /** The two random draws of a modification: a byte index and a bit. */
  datatype Flip = Flip(idx: nat, bit: nat)

  /** What an endpoint asks to run once a frame has been processed: the
      sender starts the frame's timer after processing and marks the slot
      read before it; the receiver applies its accept rule after processing. */
  datatype Hook = StartTimer(msgId: nat) | MarkRead(msgId: nat) | Accept(seqNum: int, error: bool)

  /** A deferred callback carried by a SCHEDULED self-message. */
  datatype Callback =
    | PostProcess(ctx: Context, hook: Option<Hook>)
    | PreProcess(ctx: Context, pre: Hook)
    | DuplicateLog(ctx: Context)

  /** One call into the kernel, with the absolute time (ms) it targets. */
  datatype Call =
    | ScheduleCallback(at: int, cb: Callback)
    | ScheduleTimer(at: int, handle: nat, msgId: nat)
    | SendDelayed(at: int, packet: Packet)
    | CancelEvent(handle: nat)
    | EndSimulation

  /** An endpoint's own transceiver state: the serialization cursor and the
      calls it has made so far. */
  datatype Link = Link(cursor: int, log: seq<Call>)

  predicate Quiet(c: Call) {
    !c.ScheduleTimer? && !c.CancelEvent?
  }

  /** The effect of one call on the armed timers. */
  function ArmedAfter(m: map<nat, nat>, c: Call): map<nat, nat> {
    match c
    case ScheduleTimer(_, h, id) => m[h := id]
    case CancelEvent(h) => m - {h}
    case _ => m
  }

  /** The timers scheduled and not cancelled, by handle, with the message
      id each one carries. */
  function Armed(log: seq<Call>): map<nat, nat>
  {
    if |log| == 0 then map[] else ArmedAfter(Armed(log[..|log| - 1]), log[|log| - 1])
  }

  lemma ArmedStep(log: seq<Call>, c: Call)
    ensures Armed(log + [c]) == ArmedAfter(Armed(log), c)
  {
    assert (log + [c])[..|log + [c]| - 1] == log;
  }

  /** Calls that neither schedule nor cancel a timer leave the armed timers
      as they are. */
  lemma {:induction false} ArmedQuiet(log: seq<Call>, extra: seq<Call>)
    requires forall k :: 0 <= k < |extra| ==> Quiet(extra[k])
    ensures Armed(log + extra) == Armed(log)
    decreases |extra|
  {
    if |extra| > 0 {
      var init := extra[..|extra| - 1];
      assert log + extra == (log + init) + [extra[|extra| - 1]];
      ArmedStep(log + init, extra[|extra| - 1]);
      ArmedQuiet(log, init);
    } else {
      assert log + extra == log;
    }
  }

  function Max(a: int, b: int): int {
    if a >= b then a else b
  }

  function Min(a: int, b: int): int {
    if a <= b then a else b
  }

  lemma MulAtLeast(e: int, ws: int)
    requires e >= 1 && ws >= 1
    ensures e * ws >= ws
  {
  }

  lemma ModUnique(x: int, d: int, m: int, ws: int)
    requires ws >= 1 && 0 <= m < ws && x == d * ws + m
    ensures x % ws == m
  {
    var d2, m2 := x / ws, x % ws;
    assert x == d2 * ws + m2;
    var e := d - d2;
    assert e * ws == m2 - m;
    if e >= 1 {
      MulAtLeast(e, ws);
    } else if e <= -1 {
      MulAtLeast(-e, ws);
    }
  }

  /** Counting up by one and wrapping to 0 at ws follows k mod ws. */
  lemma ModStep(k: nat, ws: int)
    requires ws >= 1
    ensures (k + 1) % ws == if k % ws + 1 == ws then 0 else k % ws + 1
  {
    var q, r := k / ws, k % ws;
    assert k == q * ws + r;
    if r + 1 == ws {
      assert k + 1 == (q + 1) * ws + 0;
      ModUnique(k + 1, q + 1, 0, ws);
    } else {
      ModUnique(k + 1, q, r + 1, ws);
    }
  }
}
