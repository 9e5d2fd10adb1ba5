/** The endpoint shell (Node): the per-line parse of the input file into
    message records, and the dispatch of kernel messages to the endpoint's
    role, which the first START or PACKET decides. */
module Endpoint {
  import opened Codec
  import opened Frames
  import opened NetEntity
  import opened Sender
  import opened Receiver

  /** isspace in the C locale: blank, tab, newline, vertical tab, form feed
      and carriage return. */
  predicate IsSpace(b: Byte) {
    b == 0x20 || (0x09 <= b <= 0x0D)
  }

  const ONE: Byte := 0x31

  /** The first non-space index at or after i. */
  function SkipSpace(line: seq<Byte>, i: nat): (r: nat)
    requires i <= |line|
    ensures i <= r <= |line|
    ensures forall j :: i <= j < r ==> IsSpace(line[j])
    ensures r < |line| ==> !IsSpace(line[r])
    decreases |line| - i
  {
    if i == |line| || !IsSpace(line[i]) then i else SkipSpace(line, i + 1)
  }

  /** The first space index at or after i: where a token starting at i ends. */
  function SkipToken(line: seq<Byte>, i: nat): (r: nat)
    requires i <= |line|
    ensures i <= r <= |line|
    ensures forall j :: i <= j < r ==> !IsSpace(line[j])
    ensures r < |line| ==> IsSpace(line[r])
    decreases |line| - i
  {
    if i == |line| || IsSpace(line[i]) then i else SkipToken(line, i + 1)
  }

  /** The bounds of the flags token: it starts after the leading spaces and
      runs to the next space. */
  function TokenStart(line: seq<Byte>): nat {
    SkipSpace(line, 0)
  }

  function TokenEnd(line: seq<Byte>): nat {
    SkipToken(line, TokenStart(line))
  }

  /** The flags token fills the four flag characters the parse reads: at
      least three characters (the fourth is then the terminating NUL) and at
      most four (the size of the buffer without its NUL). */
  predicate FlagToken(line: seq<Byte>) {
    3 <= TokenEnd(line) - TokenStart(line) <= 4
  }

  /** One input line as a message with the given id: flag k is set when
      character k of the flags token is '1'; the text is what follows the
      token and one separator; when the token runs to the end of the line
      the stream position reads as -1 and the text is the whole line. */
  function ParseLine(line: seq<Byte>, id: int): Message
    requires FlagToken(line)
  {
    var s, e := TokenStart(line), TokenEnd(line);
    var token := line[s..e];
    var flags := Flags(token[0] == ONE, token[1] == ONE, token[2] == ONE, |token| == 4 && token[3] == ONE);
    var text := if e == |line| then line else line[e + 1..];
    Message(text, id, flags)
  }

  /** Every non-empty line carries a well-formed flags token. */
  predicate WellFormed(lines: seq<seq<Byte>>) {
    forall k :: 0 <= k < |lines| && lines[k] != [] ==> FlagToken(lines[k])
  }

  /** The messages of a file, in line order: empty lines are skipped and
      the running id counts the messages made so far. */
  function Parsed(lines: seq<seq<Byte>>): seq<Message>
    requires WellFormed(lines)
    decreases |lines|
  {
    if |lines| == 0 then []
    else
      var init := Parsed(lines[..|lines| - 1]);
      var line := lines[|lines| - 1];
      if line == [] then init else init + [ParseLine(line, |init|)]
  }

  /** The non-empty lines, in order. */
  function NonEmpty(lines: seq<seq<Byte>>): seq<seq<Byte>>
    decreases |lines|
  {
    if |lines| == 0 then []
    else
      var init := NonEmpty(lines[..|lines| - 1]);
      if lines[|lines| - 1] == [] then init else init + [lines[|lines| - 1]]
  }

  // ---------------------------------------------------------------------
  // Properties of the parse.
  // ---------------------------------------------------------------------

  lemma NonEmptyWellFormed(lines: seq<seq<Byte>>)
    requires WellFormed(lines)
    ensures forall k :: 0 <= k < |NonEmpty(lines)| ==> NonEmpty(lines)[k] != [] && FlagToken(NonEmpty(lines)[k])
    decreases |lines|
  {
    if |lines| > 0 {
      NonEmptyWellFormed(lines[..|lines| - 1]);
    }
  }

  /** Each non-empty line yields exactly one message, in line order, with
      ids 0, 1, 2, ...: message k is the k-th non-empty line parsed with
      id k. */
  lemma {:induction false} ParsedLines(lines: seq<seq<Byte>>)
    requires WellFormed(lines)
    ensures |Parsed(lines)| == |NonEmpty(lines)|
    ensures forall k :: 0 <= k < |Parsed(lines)| ==>
              FlagToken(NonEmpty(lines)[k]) &&
              Parsed(lines)[k] == ParseLine(NonEmpty(lines)[k], k) && Parsed(lines)[k].id == k
    decreases |lines|
  {
    NonEmptyWellFormed(lines);
    if |lines| > 0 {
      var init := lines[..|lines| - 1];
      assert WellFormed(init);
      ParsedLines(init);
    }
  }

  /** Spelled out for one line: a token of flag characters, one separator
      and the text give exactly that text, the line's id, and the flags
      read off the token. */
  lemma ParseOfLine(token: seq<Byte>, sep: Byte, text: seq<Byte>, id: int)
    requires 3 <= |token| <= 4 && forall j :: 0 <= j < |token| ==> !IsSpace(token[j])
    requires IsSpace(sep)
    ensures var line := token + [sep] + text;
            FlagToken(line) &&
            ParseLine(line, id) ==
              Message(text, id, Flags(token[0] == ONE, token[1] == ONE, token[2] == ONE,
                                      |token| == 4 && token[3] == ONE))
  {
    var line := token + [sep] + text;
    assert TokenStart(line) == 0;
    SkipTokenAt(line, 0, |token|);
    assert line[..|token|] == token;
    assert line[|token| + 1..] == text;
  }

  lemma {:induction false} SkipTokenAt(line: seq<Byte>, i: nat, e: nat)
    requires i <= e < |line| && IsSpace(line[e]) && forall j :: i <= j < e ==> !IsSpace(line[j])
    ensures SkipToken(line, i) == e
    decreases e - i
  {
    if i < e {
      SkipTokenAt(line, i + 1, e);
    }
  }

  /** A line that is all token keeps all of itself as its text. */
  lemma TokenOnlyLine(line: seq<Byte>, id: int)
    requires 3 <= |line| <= 4 && forall j :: 0 <= j < |line| ==> !IsSpace(line[j])
    ensures FlagToken(line) && ParseLine(line, id).text == line
  {
    assert TokenStart(line) == 0;
    SkipTokenEnd(line, 0);
  }

  lemma {:induction false} SkipTokenEnd(line: seq<Byte>, i: nat)
    requires i <= |line| && forall j :: i <= j < |line| ==> !IsSpace(line[j])
    ensures SkipToken(line, i) == |line|
    decreases |line| - i
  {
    if i < |line| {
      SkipTokenEnd(line, i + 1);
    }
  }

  // ---------------------------------------------------------------------
  // The node.
  // ---------------------------------------------------------------------

  /** The node's protocol entity, decided by the first START or PACKET. */
  datatype Role = NoRole | SenderRole(s: NetSender) | ReceiverRole(r: NetReceiver)

  /** A kernel message delivered to the node. TimerIn carries the id of the
      timed-out message (None for a null message), ScheduledIn the stored
      callback; OtherKind is any other message kind, which is ignored. */
  datatype Incoming =
    | Start
    | PacketIn(pkt: Packet)
    | TimerIn(id: Option<int>)
    | ScheduledIn(cb: Callback)
    | OtherKind

  /** The callbacks each role schedules: the sender's post-process (start
      timer i) and pre-process (mark i read), the receiver's post-process
      (the accept rule), and the duplicate log of either. */
  predicate SenderCallback(cb: Callback, n: int) {
    match cb
    case PostProcess(_, hook) => hook.Some? && hook.value.StartTimer? && hook.value.msgId < n
    case PreProcess(_, pre) => pre.MarkRead? && pre.msgId < n
    case DuplicateLog(_) => true
  }

  predicate ReceiverCallback(cb: Callback) {
    match cb
    case PostProcess(_, hook) => hook.Some? && hook.value.Accept?
    case PreProcess(_, _) => false
    case DuplicateLog(_) => true
  }

  class Node {
    var params: Params
    var messages: seq<Message>
    var entity: Role

    /** The objects of the current entity. */
    function Objects(): set<object>
      reads this
    {
      match entity
      case NoRole => {}
      case SenderRole(s) => {s, s.link}
      case ReceiverRole(r) => {r, r.link}
    }

    predicate Valid()
      reads this, Objects()
    {
      ValidParams(params) && (forall i :: 0 <= i < |messages| ==> messages[i].id == i) &&
      match entity
      case NoRole => true
      case SenderRole(s) => s.params == params && s.Valid()
      case ReceiverRole(r) => r.params == params && r.link.params == params
    }

    constructor(params: Params)
      requires ValidParams(params)
      ensures Valid() && this.params == params && messages == [] && entity == NoRole
    {
      this.params := params;
      messages := [];
      entity := NoRole;
    }

    /** InitializeMessages on the lines of the input file, or None when the
        file cannot be opened. */
    method InitializeMessages(file: Option<seq<seq<Byte>>>) returns (ok: bool)
      requires file.Some? ==> WellFormed(file.value)
      modifies this
      ensures ok == file.Some?
      ensures file.Some? ==> messages == old(messages) + Parsed(file.value)
      ensures file.None? ==> messages == old(messages)
      ensures params == old(params) && entity == old(entity)
      ensures old(messages) == [] && old(Valid()) ==> Valid()
    {
      if file.None? {
        return false;
      }
      ParsedLines(file.value);
      var lines := file.value;
      var msgId := 0;
      ghost var before := messages;
      for k := 0 to |lines|
        invariant WellFormed(lines[..k])
        invariant messages == before + Parsed(lines[..k]) && msgId == |Parsed(lines[..k])|
        invariant params == old(params) && entity == old(entity)
      {
        assert lines[..k + 1][..k] == lines[..k];
        assert WellFormed(lines[..k + 1]);
        var line := lines[k];
        if line == [] {
          continue;
        }
        messages := messages + [ParseLine(line, msgId)];
        msgId := msgId + 1;
      }
      assert lines[..|lines|] == lines;
      return true;
    }

    /** handleMessage: dispatch on the message kind. */
    method HandleMessage(msg: Incoming, draws: seq<Flip>, lossDraw: int, now: int)
      requires Valid() && 0 <= lossDraw < 100
      requires msg.Start? ==> DrawsFit(Constructed(params.windowSize, messages), draws)
      requires msg.PacketIn? ==> PacketFits(msg.pkt, draws)
      requires msg.TimerIn? ==> TimerFits(msg.id, draws)
      requires msg.ScheduledIn? ==> CallbackFits(msg.cb)
      modifies this, Objects()
      ensures Valid() && params == old(params) && messages == old(messages)
      ensures msg.Start? ==> Started(draws, now)
      ensures msg.PacketIn? && old(entity).NoRole? ==>
                entity.ReceiverRole? && fresh(entity.r) &&
                entity.r.State() == OnData(params, ReceiverState(-1, Link(0, [])), msg.pkt, lossDraw, now)
      ensures !msg.Start? && !(msg.PacketIn? && old(entity).NoRole?) ==> entity == old(entity)
      ensures msg.PacketIn? && old(entity).SenderRole? ==>
                entity.s.State() == OnFrame(params, old(entity.s.State()), msg.pkt, draws, now)
      ensures msg.PacketIn? && old(entity).ReceiverRole? ==>
                entity.r.State() == OnData(params, old(entity.r.State()), msg.pkt, lossDraw, now)
      ensures msg.TimerIn? && entity.SenderRole? ==>
                entity.s.State() == OnTimeout(params, old(entity.s.State()), msg.id, draws, now)
      ensures msg.TimerIn? && entity.ReceiverRole? ==> entity.r.State() == old(entity.r.State())
      ensures msg.ScheduledIn? && entity.SenderRole? ==>
                entity.s.State() == SenderCallbackRun(params, old(entity.s.State()), msg.cb, now)
      ensures msg.ScheduledIn? && entity.ReceiverRole? ==>
                entity.r.State() == ReceiverCallbackRun(params, old(entity.r.State()), msg.cb, now)
    {
      match msg
      case Start => HandleStart(draws, now);
      case PacketIn(pkt) => HandlePacket(pkt, draws, lossDraw, now);
      case TimerIn(id) => HandleTimer(id, draws, now);
      case ScheduledIn(cb) => HandleScheduled(cb, now);
      case OtherKind =>
    }

    /** A fresh sender over the messages, whatever entity the node had. */
    predicate Started(draws: seq<Flip>, now: int)
      reads this, Objects()
    {
      ValidParams(params) && (forall i :: 0 <= i < |messages| ==> messages[i].id == i) &&
      DrawsFit(Constructed(params.windowSize, messages), draws) &&
      entity.SenderRole? &&
      entity.s.State() ==
        WindowSent(params, SenderState(Constructed(params.windowSize, messages), 0, 0, Link(0, [])),
                   false, draws, now)
    }

    /** What the entity that takes a packet demands of it. */
    predicate PacketFits(pkt: Packet, draws: seq<Flip>)
      reads this, Objects()
    {
      match entity
      case SenderRole(s) => DrawsFit(s.window, draws) && (pkt.frameType == ACK ==> 0 <= pkt.ackNum < |s.window|)
      case _ => pkt.frameType == DATA ==> |pkt.payload| >= 1
    }

    /** A timer goes to an existing entity; the sender's names one of its slots. */
    predicate TimerFits(id: Option<int>, draws: seq<Flip>)
      reads this, Objects()
    {
      match entity
      case NoRole => false
      case SenderRole(s) => DrawsFit(s.window, draws) && (id.Some? ==> 0 <= id.value < |s.window|)
      case ReceiverRole(_) => true
    }

    /** A stored callback goes to the entity that scheduled it. */
    predicate CallbackFits(cb: Callback)
      reads this, Objects()
    {
      match entity
      case NoRole => false
      case SenderRole(s) => SenderCallback(cb, |s.window|)
      case ReceiverRole(_) => ReceiverCallback(cb)
    }

    /** START: install a new sender. */
    method HandleStart(draws: seq<Flip>, now: int)
      requires Valid() && DrawsFit(Constructed(params.windowSize, messages), draws)
      modifies this
      ensures Valid() && params == old(params) && messages == old(messages)
      ensures Started(draws, now) && fresh(entity.s) && fresh(entity.s.link)
    {
      var s := new NetSender(params, messages, draws, now);
      entity := SenderRole(s);
    }

    /** PACKET: become a receiver if no entity exists yet, then forward. */
    method HandlePacket(pkt: Packet, draws: seq<Flip>, lossDraw: int, now: int)
      requires Valid() && 0 <= lossDraw < 100 && PacketFits(pkt, draws)
      modifies this, Objects()
      ensures Valid() && params == old(params) && messages == old(messages)
      ensures old(entity).NoRole? ==>
                entity.ReceiverRole? && fresh(entity.r) &&
                entity.r.State() == OnData(params, ReceiverState(-1, Link(0, [])), pkt, lossDraw, now)
      ensures !old(entity).NoRole? ==> entity == old(entity)
      ensures old(entity).SenderRole? ==>
                entity.s.State() == OnFrame(params, old(entity.s.State()), pkt, draws, now)
      ensures old(entity).ReceiverRole? ==>
                entity.r.State() == OnData(params, old(entity.r.State()), pkt, lossDraw, now)
    {
      if entity.NoRole? {
        var r := new NetReceiver(params);
        entity := ReceiverRole(r);
        r.ReceivePacket(pkt, lossDraw, now);
        return;
      }
      match entity {
        case SenderRole(s) => s.ReceivePacket(pkt, draws, now);
        case ReceiverRole(r) => r.ReceivePacket(pkt, lossDraw, now);
      }
    }

    /** TIMER: forward to the entity; the receiver only logs it. */
    method HandleTimer(id: Option<int>, draws: seq<Flip>, now: int)
      requires Valid() && TimerFits(id, draws)
      modifies Objects()
      ensures Valid()
      ensures entity.SenderRole? ==>
                entity.s.State() == OnTimeout(params, old(entity.s.State()), id, draws, now)
      ensures entity.ReceiverRole? ==> entity.r.State() == old(entity.r.State())
    {
      match entity {
        case SenderRole(s) => s.ReceiveTimerEvent(id, draws, now);
        case ReceiverRole(_) =>
      }
    }

    /** SCHEDULED: run the stored callback. */
    method HandleScheduled(cb: Callback, now: int)
      requires Valid() && CallbackFits(cb)
      modifies Objects()
      ensures Valid()
      ensures entity.SenderRole? ==>
                entity.s.State() == SenderCallbackRun(params, old(entity.s.State()), cb, now)
      ensures entity.ReceiverRole? ==>
                entity.r.State() == ReceiverCallbackRun(params, old(entity.r.State()), cb, now)
    {
      match entity {
        case SenderRole(s) => RunSenderCallback(s, cb, now);
        case ReceiverRole(r) => RunReceiverCallback(r, cb, now);
      }
    }
  }

  /** A stored callback run on the sender. */
  function SenderCallbackRun(p: Params, st: SenderState, cb: Callback, now: int): SenderState
    requires SenderCallback(cb, |st.window|)
  {
    match cb
    case PostProcess(ctx, hook) => PostProcessed(p, st, ctx, hook.value.msgId, now)
    case PreProcess(_, pre) => ReadSlot(st, pre.msgId)
    case DuplicateLog(_) => st
  }

  /** A stored callback run on the receiver. */
  function ReceiverCallbackRun(p: Params, st: ReceiverState, cb: Callback, now: int): ReceiverState
    requires ValidParams(p) && ReceiverCallback(cb)
  {
    match cb
    case PostProcess(ctx, hook) => OnReplyProcessed(p, st, ctx, hook.value.seqNum, hook.value.error, now)
    case DuplicateLog(_) => st
  }

  method RunSenderCallback(s: NetSender, cb: Callback, now: int)
    requires s.Valid() && SenderCallback(cb, |s.window|)
    modifies s, s.link
    ensures s.Valid()
    ensures s.State() == SenderCallbackRun(s.params, old(s.State()), cb, now)
  {
    ghost var st0 := s.State();
    match cb
    case PostProcess(ctx, hook) =>
      PostProcessEffects(s.params, st0, ctx, hook.value.msgId, now);
      s.RunPostProcess(ctx, hook.value.msgId, now);
    case PreProcess(_, pre) =>
      PreProcessEffects(s.params, st0, pre.msgId);
      s.RunPreProcess(pre.msgId);
    case DuplicateLog(_) =>
  }

  method RunReceiverCallback(r: NetReceiver, cb: Callback, now: int)
    requires r.link.params == r.params && ValidParams(r.params) && ReceiverCallback(cb)
    modifies r, r.link
    ensures r.State() == ReceiverCallbackRun(r.params, old(r.State()), cb, now)
  {
    match cb
    case PostProcess(ctx, hook) =>
      r.RunPostProcess(ctx, hook.value.seqNum, hook.value.error, now);
    case DuplicateLog(_) =>
  }
}
