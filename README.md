# Sliding-window ARQ link: a verified model of its protocol engine

This project models the protocol engine of an OMNeT++ simulation of a
point-to-point sliding-window ARQ link. It has two endpoints:

- A **sender** holds one window slot per input message. It numbers
  frames modulo the window size, arms a retransmission timer per slot,
  and moves a window base forward on ACKs. It resends the whole window
  on a timeout.
- A **receiver** recomputes the XOR parity of each DATA frame. It answers
  with ACK or NACK, and it accepts frames strictly in order.

Both endpoints share a transceiver (`NetEntity`). The transceiver does
four things:
- it byte-stuffs DATA payloads with the flag `$` and the escape `/`;
- it injects the scripted faults: one flipped bit, loss, duplication, an
  extra delay;
- it spaces frames by the processing time on a serialization cursor;
- it hands each frame to the channel after the transmission delay.

A node shell parses the input lines `FFFF <text>` into messages. Every
START installs a fresh sender, replacing any entity the node had. A
PACKET that reaches a node with no entity installs a receiver; otherwise
the current entity takes it.

The OMNeT++ kernel is abstract. Each transceiver keeps an append-only log
of the calls it makes:
- `ScheduleCallback(at, cb)`: a SCHEDULED self-message carrying a
  callback;
- `ScheduleTimer(at, handle, id)`;
- `SendDelayed(at, packet)`;
- `CancelEvent(handle)`;
- `EndSimulation`.

The timers armed at a given point are a map computed from that log
(`Frames.Armed`). Callbacks are first-order values (`Frames.Callback`,
`Frames.Hook`) rather than closures. Random draws are parameters with
range preconditions:
- a flipped byte and bit per window slot (`Frames.Flip`);
- the receiver's loss draw in [0, 100).

All durations are whole milliseconds.

The modules and their flavour:

| file | module | models | form |
|---|---|---|---|
| codec.dfy | `Codec` | encode, decode, parity and the C-string view of a payload | specification functions, plus the three source loops as methods proved against them |
| frames.dfy | `Frames` | packets, messages, parameters, contexts, kernel calls | datatypes |
| netentity.dfy | `NetEntity` | frame preparation, the cursor, the channel, receive-side decode | functions, plus the class `Transceiver` whose methods update the cursor and the log |
| sender.dfy | `Sender` | the sender | functions over `SenderState`, the invariant `Inv` and its lemmas, plus the class `NetSender` whose methods are proved to compute those functions in place |
| receiver.dfy | `Receiver` | the receiver | functions, plus the class `NetReceiver` |
| node.dfy | `Endpoint` | the line parse and the dispatch | functions, plus the class `Node` |

Where the documented behaviour and the code differ, the model follows the
code:

- **Parity of a modified frame.** The parity of a DATA frame is taken
  over the stuffed payload *before* the bit flip (`src/NetEntity.cc:46`
  precedes lines 55-71). A modified frame therefore carries the parity of
  the unmodified frame, and that is how the receiver detects the flip.
- **Ending the simulation.** The sender ends the simulation only from an
  ACK for the current base. Ending happens only if every slot is then
  acked (`Sender.AckEffects`), but not every time all slots are acked.
  `Sender.OutOfOrderAcksDoNotEnd` shows the gap: with three messages and
  a window of three, ACKs in the order 1, 0, 2 leave every slot acked,
  the base at 1, and no `EndSimulation` call.

The model also keeps two quirks of the code:

- **Unterminated flags token.** When the flags token reaches the end of
  the line, the stream position reads as -1. The message text is then
  the whole line (`Endpoint.TokenOnlyLine`).
- **Fired timers.** A timer that has fired stays in its slot. A later
  cancellation is a no-op for the kernel. The model records it as one
  more `CancelEvent` call.

## Model

| member | source | states |
|---|---|---|
| Codec.Encoded | src/NetEntity.cc:230-247 | EncodePacket's result: `$`, the stuffed body, `$`; its shape is stated by `Codec.EncodedShape` and `Codec.EscapePlacement`, its inverse by `Codec.RoundTrip` |
| Codec.Decoded | src/NetEntity.cc:249-268 | DecodePacket's result: the unescaped payload without its first and last byte; `Codec.RoundTrip` proves it undoes `Codec.Encoded` |
| Codec.Parity | src/NetEntity.cc:175-184 | CalculateParity's result: the sign-extended XOR fold; `Codec.ParityOfEmpty`, `Codec.XorFoldConcat`, `Codec.XorFoldFlip` and `Codec.SignExtendInjective` state its laws |
| Codec.CStr | src/NetEntity.cc:60-70 | the stored payload is the prefix of the string before its first NUL; a NUL-free string is stored whole |
| Codec.Escape | src/NetEntity.cc:236-243 | the stuffed body is longer than the input by exactly the number of `$` and `/` bytes, and stays NUL-free |
| Codec.EncodePayload | src/NetEntity.cc:230-247 | the in-place insertion loop yields exactly `$` + stuffed body + `$` |
| Codec.DecodePayload | src/NetEntity.cc:249-268 | the in-place erasure loop yields the unescaped payload without its first and last byte, for every non-empty payload |
| Codec.CalculateParity | src/NetEntity.cc:175-184 | the loop returns the XOR of all payload bytes, sign-extended as a `char` promoted to `int` |
| Codec.UnescapeEscape | src/NetEntity.cc:236-264 | the decoder's scan undoes the encoder's stuffing followed by the closing flag |
| Codec.RoundTrip | src/NetEntity.cc:230-268 | decoding the encoding of any payload returns it exactly |
| Codec.EncodedShape | src/NetEntity.cc:236-246 | the encoding starts and ends with `$`, has length \|x\| + specials + 2, and survives `c_str()` whole when x has no NUL |
| Codec.EscapePlacement | src/NetEntity.cc:236-243 | every input byte keeps its value and order; each `$` or `/` is immediately preceded by one inserted `/`; nothing else is inserted |
| Codec.XorFoldConcat | src/NetEntity.cc:175-184 | the fold of a concatenation is the XOR of the folds of the parts |
| Codec.ParityOfEmpty | src/NetEntity.cc:175-184 | the empty payload has parity 0 |
| Codec.XorFoldFlip | src/NetEntity.cc:63 | XORing a mask into one byte XORs the same mask into the fold |
| Codec.SignExtendInjective | src/NetEntity.cc:177-183 | two folds give equal parities exactly when they are equal |
| Frames.ModStep | src/NetSender.cc:167-179 | a counter that adds one and wraps to 0 at WS stays equal to the index mod WS |
| NetEntity.Transceiver.constructor | src/NetEntity.cc:8-11 | a new transceiver has cursor 0 and no calls |
| NetEntity.Transceiver.ProcessingDelay | src/NetEntity.cc:186-203 | the new cursor is max(cursor, now) + PT; the delay is the new cursor minus now; the pre-process delay is max(delay - 500, 0) |
| NetEntity.Transceiver.ExecuteScheduled | src/NetEntity.cc:221-228 | appends one SCHEDULED self-message at now + delay and leaves the cursor alone |
| NetEntity.Transceiver.SendPacket | src/NetEntity.cc:35-141 | the new cursor, log, prepared frame and "pre-process due now" answer are exactly the pipeline's |
| NetEntity.Transceiver.Deliver | src/NetEntity.cc:86-116 | appends exactly the channel's delivery calls for the frame and its flags |
| NetEntity.Transceiver.CancelEvent | src/NetSender.cc:291-292 | appends one cancellation of the given handle |
| NetEntity.Transceiver.ScheduleTimer | src/NetSender.cc:271-276 | appends one timer at the given time |
| NetEntity.Transceiver.EndSimulation | src/NetSender.cc:63 | appends the end of the simulation |
| NetEntity.NewContext | src/NetEntity.cc:161-173 | CreateTransmissionContext: the packet and message id, no flipped bit, reply not lost; stated by `NetEntity.FreshContext` |
| NetEntity.FreshContext | src/NetEntity.cc:43-70 | a fresh context has bit index -1 and ackLost false; after preparation the index stays -1 exactly when no bit was flipped, and is at least 1 otherwise |
| NetEntity.ChannelDelay | src/NetEntity.cc:205-219 | CalculateDelay: TD, plus ED only for an attached message with the delay flag; stated by `NetEntity.Deliveries` |
| NetEntity.PrepareFrame | src/NetEntity.cc:40-72 | computes the prepared frame: stuffed payload, parity of the stuffed payload, then the drawn bit flipped (through `c_str()`) with index idx*8+bit |
| NetEntity.ReceiveFrame | src/NetEntity.cc:21-33 | the parity is taken over the payload as it arrived; only a DATA payload is decoded, every other frame is unchanged |
| NetEntity.CursorLaws | src/NetEntity.cc:186-203 | the cursor never moves back and advances by at least PT; the delay is at least PT; the pre-process delay is in [0, delay] and positive exactly when the delay exceeds 500 ms |
| NetEntity.PipelineCalls | src/NetEntity.cc:119-140 | one post-process at the end of processing; a pre-process 500 ms earlier exactly when that is still in the future, and due at once otherwise; no timer is touched |
| NetEntity.ModifiedFrame | src/NetEntity.cc:43-70 | a modified frame records bit index idx*8+bit and keeps the parity of the stuffed payload; its carried parity differs from its recomputed parity unless the flipped byte became NUL, in which case the payload is cut at that byte |
| NetEntity.FlipDetected | src/NetEntity.cc:60-70 | a flip that leaves no NUL survives `c_str()` and changes the parity |
| NetEntity.FlipTruncates | src/NetEntity.cc:63-70 | a flip that makes a NUL cuts the stored payload at the flipped byte |
| NetEntity.DeliveredIntact | src/NetEntity.cc:40-46 | an unmodified DATA frame carries its own parity and decodes back to the original payload |
| NetEntity.PreparedNonEmpty | src/NetEntity.cc:43-70 | a prepared DATA payload is never empty: one flipped bit cannot turn the leading `$` into NUL |
| NetEntity.ControlFrameUntouched | src/NetEntity.cc:40 | ACK and NACK frames go out exactly as built |
| NetEntity.Deliveries | src/NetEntity.cc:86-116 | a frame lost by its flag or by ackLost sends nothing; otherwise it goes out once after TD (+ ED on the delay flag, so exactly TD with no message), and a second time DD later on the duplication flag; no timer is touched |
| Sender.Outgoing | src/NetSender.cc:150-155 | a DATA frame with the slot's sequence number, ackNum = message id, the text as a C string and parity -1 |
| Sender.CancelSlot | src/NetSender.cc:281-296 | a null handle changes nothing; otherwise one cancellation of that handle is logged; the handle is null afterwards and no other slot changes |
| Sender.StartSlotTimer | src/NetSender.cc:261-279 | a held timer is cancelled first, then one timer is armed at now + TO for this slot with the fresh handle; the slot ends up holding that handle and no other slot changes |
| Sender.ReadSlot | src/NetSender.cc:211-222 | the slot's read flag is set and nothing else changes |
| Sender.SendSlot | src/NetSender.cc:132-146 | a sent slot is skipped unless forced; a (re)sent slot is sent, unacked, with no timer; data, sequence number and read flag are kept; no other slot changes; the calls it makes are stated by `Sender.SendSlotCalls` |
| Sender.SendSlotCalls | src/NetSender.cc:132-146 | a skipped slot leaves the transceiver as it was; a (re)sent slot appends exactly: the cancel of the timer it holds, the post-process of the slot's frame with the StartTimer hook when processing ends, and the MarkRead pre-process 500 ms before it when that is still ahead; the cursor moves to the end of the frame's processing |
| Sender.SlotFrameIs | src/NetSender.cc:146-155 | the frame a slot is handed to the pipeline as is DATA with the slot's sequence number, its message id as ackNum and as context id, and a reply that is not lost; without modification its payload is the stuffed C-string text and its parity that payload's parity, with no bit index |
| Sender.HandedLog | src/NetSender.cc:187-226 | handing a frame over moves the cursor to the end of its processing and appends exactly the post-process of the prepared frame with the StartTimer hook and the MarkRead pre-process; no EndSimulation is logged |
| Sender.Handed | src/NetSender.cc:187-226 | handing a frame to the pipeline changes at most the slot's read flag and no other slot; the calls it appends are stated by `Sender.HandedLog` |
| Sender.SendRangeKeeps | src/NetSender.cc:128-147 | SendWindow's loop keeps every slot's message and sequence number, the window length, the base and the handle counter |
| Sender.WindowSent | src/NetSender.cc:120-148 | SendWindow(force) as a function of the state: the slot-by-slot loop over [base, min(base+WS, n)); stated by `Sender.SendRangeEffects`, `Sender.SendRangeCalls`, `Sender.SendRangeInv`, `Sender.SendRangeKeeps` and `Sender.SendRangeAllSent` |
| Sender.OnAck | src/NetSender.cc:35-74 | an ACK as a function of the state; stated by `Sender.AckEffects` |
| Sender.OnFrame | src/NetSender.cc:20-82 | a frame at the sender as a function of the state; stated by `Sender.FrameEffects` |
| Sender.OnTimeout | src/NetSender.cc:84-113 | a timer event as a function of the state; stated by `Sender.TimeoutEffects` |
| Sender.AckedState | src/NetSender.cc:40-42 | the acked slot is acked with a null handle; base unchanged |
| Sender.Cleared | src/NetSender.cc:108-109 | the timed-out message loses all four fault flags and keeps its text and id; the rest of its slot, every other slot, the base and the link are unchanged |
| Sender.PostProcessed | src/NetSender.cc:201-209 | the window length and the base are kept; the timer and the delivery are stated by `Sender.PostProcessEffects` |
| Sender.ConstructedInv | src/NetSender.cc:157-180 | the constructed window satisfies the invariant with base 0: slot i has seqNum i mod WS and id i; slot i holds message i; nothing is read, sent, acked or timed |
| Sender.TimerDiscipline | src/NetSender.cc:261-296 | after StartTimer the slot holds exactly one armed timer, the fresh one; after CancelTimer it holds none, no armed timer names it, and a null handle leaves everything unchanged; the invariant is kept |
| Sender.SendSlotInv | src/NetSender.cc:132-146 | sending one in-window slot keeps the invariant |
| Sender.SendRangeInv | src/NetSender.cc:120-148 | SendWindow keeps the invariant |
| Sender.SendRangeEffects | src/NetSender.cc:120-148 | only slots in [base, min(base+WS, n)) change; all of them are sent; without force an already-sent slot is untouched; every (re)sent slot is unacked with no timer, even one that was acked; read flags are never reset; the frames handed over are stated by `Sender.SendRangeCalls` |
| Sender.SendRangeCalls | src/NetSender.cc:128-147 | the loop appends to the kernel log exactly `RangeCalls`: for each (re)sent slot, in slot order, the cancel of its timer, one post-process carrying the slot's frame (`Sender.SlotFrame`: DATA, its sequence number, ackNum = id) with hook StartTimer(slot), and its MarkRead pre-process, each frame queued behind the one before; nothing for a skipped slot and no other call |
| Sender.SendRangeAllSent | src/NetSender.cc:132-136 | without force, a window whose slots are all sent is left exactly as it was |
| Sender.AckEffects | src/NetSender.cc:35-74 | the acked slot is acked and its timer cancelled; off the base nothing else changes, base included; at the base the simulation ends exactly when every slot is acked (window and base untouched); otherwise base = min(base+1, n-1), no end, and SendWindow(false) sends the new window: every slot in [base, min(base+WS, n)) is sent, an unsent one becomes unacked and untimed, a sent one is untouched, no slot outside changes; base never decreases and stays <= n-1; invariant kept |
| Sender.AckKeepsData | src/NetSender.cc:38-73 | an ACK changes no slot's message |
| Sender.FrameEffects | src/NetSender.cc:20-82 | a NACK and any non-ACK frame leave the whole state as it was; an ACK marks its slot; invariant, messages and read flags are kept and the base never decreases |
| Sender.TimeoutEffects | src/NetSender.cc:84-113 | a null message, an acked slot or a slot outside [base, base+WS) is ignored; otherwise that message loses all four flags, others keep theirs, and the window [base, min(base+WS, n)) is resent (sent, unacked, untimed) with the base unchanged |
| Sender.PostProcessEffects | src/NetSender.cc:201-209 | the post-process starts the slot's timer, then appends exactly the channel's delivery calls for the frame with the message's flags as they are at that moment (with the loss flag set: the timer and nothing else); it arms exactly one timer for the slot, the fresh one, changes no other slot and keeps the invariant |
| Sender.PreProcessEffects | src/NetSender.cc:211-222 | the pre-process sets the read flag and keeps the invariant, the link and the base |
| Sender.OutOfOrderAcksDoNotEnd | src/NetSender.cc:45-73 | with n = WS = 3, ACKs 1, 0, 2 leave all slots acked, base 1, and no end of the simulation |
| Sender.ConstructWindow | src/NetSender.cc:157-185 | the loop with a wrapping counter builds exactly the constructed window; the counter ends at n mod WS |
| Sender.NetSender.constructor | src/NetSender.cc:9-18 | a new sender holds the constructed window after SendWindow(false), and satisfies the invariant |
| Sender.NetSender.CancelTimer | src/NetSender.cc:281-296 | updates the fields exactly as `Sender.CancelSlot` |
| Sender.NetSender.StartTimer | src/NetSender.cc:261-279 | updates the fields exactly as `Sender.StartSlotTimer` |
| Sender.NetSender.RunPreProcess | src/NetSender.cc:211-223 | updates the fields exactly as `Sender.ReadSlot` |
| Sender.NetSender.RunPostProcess | src/NetSender.cc:201-209 | updates the fields exactly as `Sender.PostProcessed` |
| Sender.NetSender.SendPacket | src/NetSender.cc:187-226 | updates the fields exactly as `Sender.Handed`; a pre-process that is due at once runs at once |
| Sender.NetSender.SendSlotAt | src/NetSender.cc:130-146 | one loop iteration updates the fields exactly as `Sender.SendSlot` |
| Sender.NetSender.SendWindow | src/NetSender.cc:120-148 | the loop updates the fields exactly as `Sender.WindowSent` and keeps the invariant |
| Sender.NetSender.FullyAcked | src/NetSender.cc:50-58 | the scan answers true exactly when every slot is acked |
| Sender.NetSender.ReceivePacket | src/NetSender.cc:20-82 | updates the fields exactly as `Sender.OnFrame` and keeps the invariant |
| Sender.NetSender.ReceiveTimerEvent | src/NetSender.cc:84-113 | updates the fields exactly as `Sender.OnTimeout` and keeps the invariant |
| Receiver.ExpectedPrev | src/NetReceiver.cc:36-40 | for 0 <= seq < WS the expected predecessor is (seq - 1) mod WS, in [0, WS) |
| Receiver.NetReceiver.constructor | src/NetReceiver.cc:6-11 | the last accepted number starts at -1 |
| Receiver.NetReceiver.ReceivePacket | src/NetReceiver.cc:13-67 | updates its transceiver exactly as `Receiver.OnData` and leaves the accept state alone |
| Receiver.NetReceiver.RunPostProcess | src/NetReceiver.cc:34-53 | applies the accept rule, then the channel delivery of the reply, exactly as `Receiver.OnReplyProcessed` |
| Receiver.Accepted | src/NetReceiver.cc:36-47 | the accept rule: the last accepted number becomes seq for an intact frame that follows it (or the first frame) and is otherwise unchanged; stated by `Receiver.InOrderAccepted`, `Receiver.OutOfOrderKept` and `Receiver.AcceptedRange` |
| Receiver.Reply | src/NetReceiver.cc:61 | the ACK/NACK reply; stated by `Receiver.ReplyScheduled` and `Receiver.VerdictOfPrepared` |
| Receiver.OnData | src/NetReceiver.cc:13-67 | ReceivePacket as a function of the state; stated by `Receiver.ReplyScheduled` |
| Receiver.OnReplyProcessed | src/NetReceiver.cc:34-53 | the reply's post-process as a function of the state; stated by `Receiver.ReplyDelivered` and the accept-rule lemmas |
| Receiver.InOrderAccepted | src/NetReceiver.cc:36-47 | a fresh receiver fed frames 0, 1, ..., k-1 (mod WS) intact accepts them all: the last accepted number is (k-1) mod WS |
| Receiver.AcceptedRange | src/NetReceiver.cc:42-47 | with sequence numbers in [0, WS) the last accepted number stays in [-1, WS) |
| Receiver.OutOfOrderKept | src/NetReceiver.cc:42-47 | once something was accepted, a frame that does not follow it changes nothing, whatever its verdict |
| Receiver.ReplyScheduled | src/NetReceiver.cc:15-66 | every frame is answered: exactly one post-process is scheduled; the reply is NACK exactly on a parity mismatch over the still-stuffed payload, else ACK; it echoes seqNum and ackNum with an empty payload and parity -1; ackLost holds exactly when the draw is below the loss rate; the accept state is not touched on arrival |
| Receiver.ReplyDelivered | src/NetReceiver.cc:63-66 | a lost reply sends nothing; otherwise it goes out once after exactly TD |
| Receiver.VerdictOfPrepared | src/NetReceiver.cc:16-26 | an unmodified sender frame passes the check and is ACKed with its message id; a modified one whose flip left no NUL fails it and is NACKed |
| Endpoint.SkipSpace | src/Node.cc:76 | the extraction skips exactly the leading whitespace |
| Endpoint.SkipToken | src/Node.cc:76 | the token runs to the next whitespace or the end of the line |
| Endpoint.ParseLine | src/Node.cc:72-85 | one line as a message; stated by `Endpoint.ParseOfLine` and `Endpoint.TokenOnlyLine` |
| Endpoint.Parsed | src/Node.cc:64-88 | the messages of a file; stated by `Endpoint.ParsedLines` |
| Endpoint.ParsedLines | src/Node.cc:64-88 | each non-empty line yields exactly one message, in order; message k is the k-th non-empty line parsed with id k |
| Endpoint.ParseOfLine | src/Node.cc:72-85 | for token + separator + text, the message is that text and flag k == (token[k] == '1'), for modification, loss, duplication, delay |
| Endpoint.TokenOnlyLine | src/Node.cc:79 | a line that is only the token keeps the whole line as its text |
| Endpoint.Node.constructor | src/Node.cc:9-12 | a new node has no entity and no messages |
| Endpoint.Node.InitializeMessages | src/Node.cc:44-94 | fails without touching anything when the file cannot be opened; otherwise appends exactly the parsed messages; on a node with no messages yet the ids are 0..k-1 and the node stays valid |
| Endpoint.Node.HandleMessage | src/Node.cc:109-146 | START installs a new sender over the messages; a packet goes to the current entity, or to a new receiver when there is none; a timer goes to the sender's timeout handling and changes nothing at a receiver; a SCHEDULED callback runs on the entity; only START and a first packet replace the entity; parameters, messages and every entity's invariant are kept |
| Endpoint.Node.HandleStart | src/Node.cc:113-119 | START always installs a fresh sender over the messages, whatever entity existed |
| Endpoint.Node.HandlePacket | src/Node.cc:121-134 | with no entity, a fresh receiver is installed and takes the packet; otherwise the entity is kept and takes it |
| Endpoint.Node.HandleTimer | src/Node.cc:136-139 | a timer goes to the sender's timeout handling; the receiver's handler changes nothing |
| Endpoint.Node.HandleScheduled | src/Node.cc:141-144 | the stored callback runs on the entity |
| Endpoint.RunSenderCallback | src/NetSender.cc:201-223 | the sender's post- and pre-process callbacks run as specified and keep the invariant |
| Endpoint.RunReceiverCallback | src/NetReceiver.cc:34-53 | the receiver's post-process runs the accept rule and the delivery |

## Left out

- The kernel's event queue is left out: ordering events by virtual time, firing timers and running SCHEDULED messages. The model records the calls an endpoint makes. A handler is run by calling it with the event's data. A fired timer stays in the armed map until the slot cancels it.
- Logging has no protocol effect and is left out: `SysLogger.cc`, `NODE_LOG`, `SysLog`, `LogWindow`, and `SysLogTransmission` with its `nextDuplicateType` counter. The deferred duplicate log is kept as a callback that changes nothing.
- Parameters are given in whole milliseconds. The source reads seconds as `double` and multiplies them by 1000, and that floating-point arithmetic is not modelled. The loss test compares the truncated draw with the truncated loss rate, as the source does.
- `Coordinator.cc`, `Node::ReadParams`, opening the input file and splitting it into lines are I/O. `Endpoint.Node.InitializeMessages` takes the lines, or None for a file that cannot be opened.
- `NetEntity::Probability` is not used by the protocol.
- Memory management is not modelled: `new`/`delete`, the list of transmission contexts, and the boxed callbacks. The raw `void*` timer handles are natural numbers drawn from a counter.
- A second START builds a new sender, but the model does not capture everything the source does then:
  - The model runs a SCHEDULED callback on the node's current entity. In the source, a callback scheduled by the replaced sender, or a timer it armed, still runs on that old object.
  - The source shares message records between the node and the sender, so flags that a timeout cleared are also cleared for the new sender. The model gives the new sender the node's copy.
- Some C-level hazards are preconditions, not modelled behaviour:
  - a flags token longer than 4 (it overflows `char flags[5]`) or shorter than 3 (`flags[3]` stays uninitialised);
  - unchecked `m_Window[ackNum]` and `m_Window[data->id]`;
  - decoding an empty DATA payload (`size() - 1` wraps);
  - a TIMER or SCHEDULED message reaching a node with no entity (a null dereference).
- A DATA frame that reaches the sender is decoded by `NetEntity::ReceivePacket` and then ignored. The decode has no effect on the sender's state, so `Sender.NetSender.ReceivePacket` leaves it out.
- Codec.XorFoldConcat: states the concatenation law on the 8-bit fold, not on the `int` parity, because Dafny has no XOR on `int`. `Codec.SignExtendInjective` only carries over equality: two payloads have equal parities exactly when their folds are equal.
- NetEntity.CursorLaws: assumes a non-negative processing time, as every configuration supplies.
