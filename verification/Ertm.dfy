/**
  * Enhanced Retransmission Mode: control field, configuration and the engine's
  * operations as functions on its state.
  *
  * Bit masks and shifts by constants are written as quotients and remainders,
  * which they equal on unsigned bytes.
  */
module Ertm {
  import opened Bytes


  // A sequence number as the engine stores it.
  type SeqNo = n: int | 0 <= n < 64

  datatype Sar = Unsegmented | Start | End | Continuation

  datatype SupervisoryFunction = ReceiverReady | Reject | ReceiverNotReady | SelectiveReject

  datatype Control =
    | Information(txSeq: byte, finalBit: bool, reqSeq: byte, sar: Sar)
    | Supervisory(function_: SupervisoryFunction, poll: bool, finalBit: bool, reqSeq: byte)

  datatype Error =
    | EngineFailed
    | SduExceedsPeerMtu
    | TruncatedControl
    | SequenceOutOfRange
    | AcknowledgedTooMany
    | InterruptedSdu
    | SduExceedsLocalMtu
    | MissingSduLength
    | ContinuationWithoutStart
    | EndWithoutStart
    | LengthMismatch
    | LengthReachedEarly
    | UnknownSelectiveReject
    | RetransmissionLimit(txSeq: SeqNo)

  // ---------------------------------------------------------------------------
  // Control field codec
  // ---------------------------------------------------------------------------

  function SarCode(sar: Sar): byte {
    match sar
    case Unsegmented => 0
    case Start => 1
    case End => 2
    case Continuation => 3
  }

  function SarOf(code: int): Sar
    requires 0 <= code < 4
  {
    if code == 0 then Unsegmented else if code == 1 then Start else if code == 2 then End else Continuation
  }

  function FunctionCode(f: SupervisoryFunction): byte {
    match f
    case ReceiverReady => 0
    case Reject => 1
    case ReceiverNotReady => 2
    case SelectiveReject => 3
  }

  function FunctionOf(code: int): SupervisoryFunction
    requires 0 <= code < 4
  {
    if code == 0 then ReceiverReady else if code == 1 then Reject
    else if code == 2 then ReceiverNotReady else SelectiveReject
  }

  function Bit(b: bool, weight: byte): byte { if b then weight else 0 }

  function DecodeControl(data: seq<byte>): Result<Control, Error> {
    if |data| < 2 then Failure(TruncatedControl)
    else if data[0] % 2 == 0 then
      Success(Information((data[0] / 2) % 64, data[0] >= 0x80, data[1] % 64, SarOf(data[1] / 64)))
    else
      Success(Supervisory(FunctionOf((data[0] / 4) % 4), (data[0] / 16) % 2 == 1, data[0] >= 0x80, data[1] % 64))
  }

  function EncodeControl(c: Control): Result<seq<byte>, Error> {
    match c
    case Information(txSeq, finalBit, reqSeq, sar) =>
      if txSeq >= 64 || reqSeq >= 64 then Failure(SequenceOutOfRange)
      else Success([txSeq * 2 + Bit(finalBit, 0x80), reqSeq + 64 * SarCode(sar)])
    case Supervisory(f, poll, finalBit, reqSeq) =>
      if reqSeq >= 64 then Failure(SequenceOutOfRange)
      else Success([1 + 4 * FunctionCode(f) + Bit(poll, 0x10) + Bit(finalBit, 0x80), reqSeq])
  }

  lemma InformationByte(txSeq: SeqNo, finalBit: bool)
    ensures var b := txSeq * 2 + Bit(finalBit, 0x80);
            b % 2 == 0 && (b / 2) % 64 == txSeq && (b >= 0x80 <==> finalBit)
  {
  }

  lemma SupervisoryByte(code: int, poll: bool, finalBit: bool)
    requires 0 <= code < 4
    ensures var b := 1 + 4 * code + Bit(poll, 0x10) + Bit(finalBit, 0x80);
            b % 2 == 1 && (b / 4) % 4 == code && ((b / 16) % 2 == 1 <==> poll) && (b >= 0x80 <==> finalBit)
  {
  }

  /** Encoding succeeds exactly on in-range sequence numbers, and decoding inverts it whatever follows. */
  lemma ControlRoundTrip(c: Control, rest: seq<byte>)
    ensures EncodeControl(c).Success? <==> c.reqSeq < 64 && (c.Information? ==> c.txSeq < 64)
    ensures EncodeControl(c).Success? ==>
              |EncodeControl(c).value| == 2 && DecodeControl(EncodeControl(c).value + rest) == Success(c)
  {
    hide Bit;
    if EncodeControl(c).Success? {
      if c.Information? {
        InformationByte(c.txSeq, c.finalBit);
        assert SarOf(SarCode(c.sar)) == c.sar;
      } else {
        SupervisoryByte(FunctionCode(c.function_), c.poll, c.finalBit);
        assert FunctionOf(FunctionCode(c.function_)) == c.function_;
      }
    }
  }

  /** Every decoded field is in range; an information field re-encodes to the same two bytes. */
  lemma DecodeThenEncode(data: seq<byte>)
    requires |data| >= 2
    ensures DecodeControl(data).Success? && EncodeControl(DecodeControl(data).value).Success?
    ensures data[0] % 2 == 0 ==> EncodeControl(DecodeControl(data).value).value == data[..2]
  {
    var c := DecodeControl(data).value;
    if data[0] % 2 == 0 {
      var sar := data[1] / 64;
      assert SarCode(SarOf(sar)) == sar;
    }
  }

  // ---------------------------------------------------------------------------
  // Sequence arithmetic
  // ---------------------------------------------------------------------------

  function SequenceAdd(sequence: SeqNo, delta: byte): SeqNo {
    ((sequence + delta) % 0x100) % 64
  }

  function SequenceDistance(from: SeqNo, to: SeqNo): SeqNo {
    (((to + 64) % 0x100 - from + 0x100) % 0x100) % 64
  }

  /** Distances between wrapped counters that are less than a modulus apart are exact. */
  lemma DistanceIsExact(from: nat, to: nat)
    requires from <= to < from + 64
    ensures SequenceDistance(from % 64, to % 64) == to - from
  {
    var f, t := from % 64, to % 64;
    assert t + 64 < 0x100;
    assert SequenceDistance(f, t) == (t + 64 - f) % 64;
    assert to - from == 64 * (to / 64 - from / 64) + t - f;
  }

  lemma AddOneWraps(n: nat)
    ensures SequenceAdd(n % 64, 1) == (n + 1) % 64 != n % 64
  {
  }

  /** Two counters less than a modulus apart agree modulo 64 only when they are equal. */
  lemma CongruentAndClose(a: nat, b: nat)
    requires a % 64 == b % 64
    requires a < b + 64 && b < a + 64
    ensures a == b
  {
  }

  // ---------------------------------------------------------------------------
  // Configuration and state
  // ---------------------------------------------------------------------------

  datatype Config = Config(
    localMtu: u16, peerMtu: u16, localMps: u16, peerMps: u16,
    txWindowSize: byte, maxRetransmissions: byte, timeoutTicks: u32)

  predicate ValidConfig(c: Config) {
    && c.localMtu > 0 && c.peerMtu > 0
    && c.localMps > 0 && c.peerMps > 0
    && 1 <= c.txWindowSize < 64
    && c.timeoutTicks > 0
  }

  // One segment of an SDU, before it is numbered.
  datatype Segment = Segment(payload: seq<byte>, sar: Sar, sduLength: Option<u16>)

  datatype PendingFrame = PendingFrame(segment: Segment, txSeq: SeqNo)

  datatype TransmittedFrame = TransmittedFrame(frame: PendingFrame, transmissions: u16)

  // What an outbound frame stands for, with its sequence numbers unwrapped.
  datatype Tag =
    | Info(serial: nat, req: nat)
    | Super(function_: SupervisoryFunction, poll: bool, finalBit: bool, req: nat)

  /**
    * History variables: counts of frames ever numbered, acknowledged and accepted,
    * the tags of the queued outbound frames and of every frame ever emitted. The
    * operations extend them and never read them.
    */
  datatype History = History(created: nat, acked: nat, accepted: nat, queued: seq<Tag>, emitted: seq<Tag>)

  datatype Engine = Engine(
    config: Config,
    pending: seq<PendingFrame>,
    window: seq<TransmittedFrame>,
    outbound: seq<seq<byte>>,
    received: seq<seq<byte>>,
    nextTxSeq: SeqNo,
    lastAckedTxSeq: SeqNo,
    expectedTxSeq: SeqNo,
    lastAckedRxSeq: SeqNo,
    remoteBusy: bool,
    localBusy: bool,
    inputSdu: seq<byte>,
    inputLength: Option<nat>,
    now: u64,
    deadline: Option<u64>,
    failed: bool,
    history: History)

  // An operation's new state, and the error it returned if any.
  datatype Step = Step(engine: Engine, error: Option<Error>)

  function Fresh(c: Config): Engine {
    Engine(c, [], [], [], [], 0, 0, 0, 0, false, false, [], None, 0, None, false, History(0, 0, 0, [], []))
  }

  // ---------------------------------------------------------------------------
  // Segmentation
  // ---------------------------------------------------------------------------

  function ChunkEnd(sdu: seq<byte>, mps: nat, offset: nat): nat { Min(offset + mps, |sdu|) }

  function SegmentAt(sdu: seq<byte>, mps: nat, offset: nat): Segment
    requires 0 < mps && offset < |sdu| < 0x1_0000
  {
    var end := ChunkEnd(sdu, mps, offset);
    var sar := if offset == 0 then Start else if end == |sdu| then End else Continuation;
    Segment(sdu[offset..end], sar, if sar == Start then Some(|sdu|) else None)
  }

  function SegmentsFrom(sdu: seq<byte>, mps: nat, offset: nat): seq<Segment>
    requires 0 < mps && |sdu| < 0x1_0000
    decreases |sdu| - offset
  {
    if offset >= |sdu| then [] else [SegmentAt(sdu, mps, offset)] + SegmentsFrom(sdu, mps, offset + mps)
  }

  function Segments(sdu: seq<byte>, mps: nat): seq<Segment>
    requires 0 < mps && |sdu| < 0x1_0000
  {
    if |sdu| <= mps then [Segment(sdu, Unsegmented, None)] else SegmentsFrom(sdu, mps, 0)
  }

  // Consecutive sequence numbers for new segments.
  function Number(segments: seq<Segment>, first: SeqNo): seq<PendingFrame> {
    seq(|segments|, i requires 0 <= i < |segments| => PendingFrame(segments[i], (first + i) % 64))
  }

  function QueueSegments(e: Engine, segments: seq<Segment>): Engine {
    e.(pending := e.pending + Number(segments, e.nextTxSeq),
       nextTxSeq := (e.nextTxSeq + |segments|) % 64,
       history := e.history.(created := e.history.created + |segments|))
  }

  // ---------------------------------------------------------------------------
  // Output
  // ---------------------------------------------------------------------------

  // What follows the control field of a segment's frame.
  function Body(s: Segment): seq<byte> {
    (if s.sduLength.Some? then Le16(s.sduLength.value) else []) + s.payload
  }

  function EncodeFrame(f: PendingFrame, req: SeqNo): seq<byte> {
    [f.txSeq * 2, req + 64 * SarCode(f.segment.sar)] + Body(f.segment)
  }

  function EncodeSupervisory(f: SupervisoryFunction, poll: bool, finalBit: bool, req: SeqNo): seq<byte> {
    [1 + 4 * FunctionCode(f) + Bit(poll, 0x10) + Bit(finalBit, 0x80), req]
  }

  /** The two frame encoders are the control-field encoder followed by the frame's body. */
  lemma FrameEncodings(f: PendingFrame, g: SupervisoryFunction, poll: bool, finalBit: bool, req: SeqNo)
    ensures EncodeControl(Information(f.txSeq, false, req, f.segment.sar)) == Success(EncodeFrame(f, req)[..2])
    ensures EncodeControl(Supervisory(g, poll, finalBit, req)) == Success(EncodeSupervisory(g, poll, finalBit, req))
    ensures DecodeControl(EncodeFrame(f, req)) == Success(Information(f.txSeq, false, req, f.segment.sar))
    ensures EncodeFrame(f, req)[2..] == Body(f.segment)
    ensures DecodeControl(EncodeSupervisory(g, poll, finalBit, req)) == Success(Supervisory(g, poll, finalBit, req))
  {
    var info := Information(f.txSeq, false, req, f.segment.sar);
    var super := Supervisory(g, poll, finalBit, req);
    var frame := EncodeFrame(f, req);
    assert frame == frame[..2] + frame[2..];
    assert frame[..2] == [f.txSeq * 2, req + 64 * SarCode(f.segment.sar)];
    ControlRoundTrip(info, frame[2..]);
    ControlRoundTrip(super, []);
    assert EncodeSupervisory(g, poll, finalBit, req) + [] == EncodeSupervisory(g, poll, finalBit, req);
  }

  function EncodeAll(frames: seq<PendingFrame>, req: SeqNo): seq<seq<byte>> {
    seq(|frames|, i requires 0 <= i < |frames| => EncodeFrame(frames[i], req))
  }

  function InfoTags(first: nat, count: nat, req: nat): seq<Tag> {
    seq(count, i requires 0 <= i < count => Info(first + i, req))
  }

  function Emit(e: Engine, frames: seq<seq<byte>>, tags: seq<Tag>): Engine {
    e.(outbound := e.outbound + frames,
       lastAckedRxSeq := e.expectedTxSeq,
       history := e.history.(queued := e.history.queued + tags, emitted := e.history.emitted + tags))
  }

  function SendSupervisory(e: Engine, f: SupervisoryFunction, poll: bool, finalBit: bool): Engine {
    Emit(e, [EncodeSupervisory(f, poll, finalBit, e.expectedTxSeq)], [Super(f, poll, finalBit, e.history.accepted)])
  }

  function SaturatingAdd64(a: u64, b: u64): u64 { Min(a + b, 0xFFFF_FFFF_FFFF_FFFF) }

  function RefreshDeadline(e: Engine): Engine {
    e.(deadline := if e.window == [] then None else Some(SaturatingAdd64(e.now, e.config.timeoutTicks)))
  }

  // How many pending frames the transmit window still admits.
  function Room(e: Engine): nat {
    if |e.window| < e.config.txWindowSize then Min(e.config.txWindowSize - |e.window|, |e.pending|) else 0
  }

  function FirstTransmissions(frames: seq<PendingFrame>): seq<TransmittedFrame> {
    seq(|frames|, i requires 0 <= i < |frames| => TransmittedFrame(frames[i], 1))
  }

  // Move the first `n` pending frames into the window and emit them.
  function Advance(e: Engine, n: nat): Engine
    requires n <= |e.pending|
  {
    if n == 0 then e
    else
      var frames := e.pending[..n];
      Emit(e, EncodeAll(frames, e.expectedTxSeq),
           InfoTags(e.history.acked + |e.window|, n, e.history.accepted))
        .(pending := e.pending[n..], window := e.window + FirstTransmissions(frames))
  }

  function ProcessOutput(e: Engine): Engine {
    if e.remoteBusy then e else RefreshDeadline(Advance(e, Room(e)))
  }

  function LimitReached(max: byte, frame: TransmittedFrame): bool {
    max != 0 && Max(frame.transmissions - 1, 0) >= max
  }

  // The position of the first window frame that may not be sent again, or the window's length.
  function FirstExhausted(window: seq<TransmittedFrame>, max: byte): (i: nat)
    ensures i <= |window|
    ensures forall j :: 0 <= j < i ==> !LimitReached(max, window[j])
    ensures i < |window| ==> LimitReached(max, window[i])
  {
    if window == [] || LimitReached(max, window[0]) then 0 else 1 + FirstExhausted(window[1..], max)
  }

  function Again(frame: TransmittedFrame): TransmittedFrame {
    frame.(transmissions := (frame.transmissions + 1) % 0x1_0000)
  }

  function AllAgain(window: seq<TransmittedFrame>): seq<TransmittedFrame> {
    seq(|window|, i requires 0 <= i < |window| => Again(window[i]))
  }

  function Frames(window: seq<TransmittedFrame>): seq<PendingFrame> {
    seq(|window|, i requires 0 <= i < |window| => window[i].frame)
  }

  // Emit every window frame once more.
  function Resend(e: Engine): Engine {
    if e.window == [] then e
    else
      Emit(e, EncodeAll(Frames(e.window), e.expectedTxSeq),
           InfoTags(e.history.acked, |e.window|, e.history.accepted))
        .(window := AllAgain(e.window))
  }

  function RetransmitAll(e: Engine): Step {
    if e.remoteBusy then Step(e, None)
    else
      var i := FirstExhausted(e.window, e.config.maxRetransmissions);
      if i < |e.window| then Step(e.(failed := true), Some(RetransmissionLimit(e.window[i].frame.txSeq)))
      else Step(RefreshDeadline(Resend(e)), None)
  }

  // The position of the first window frame numbered `txSeq`, or the window's length.
  function FindFrame(window: seq<TransmittedFrame>, txSeq: byte): (i: nat)
    ensures i <= |window|
    ensures i < |window| ==> window[i].frame.txSeq == txSeq
  {
    if window == [] || window[0].frame.txSeq == txSeq then 0 else 1 + FindFrame(window[1..], txSeq)
  }

  function RetransmitOne(e: Engine, txSeq: byte): Step {
    if e.remoteBusy then Step(e, None)
    else
      var i := FindFrame(e.window, txSeq);
      if i == |e.window| then Step(e, Some(UnknownSelectiveReject))
      else if LimitReached(e.config.maxRetransmissions, e.window[i]) then
        Step(e.(failed := true), Some(RetransmissionLimit(e.window[i].frame.txSeq)))
      else
        Step(RefreshDeadline(
               Emit(e, [EncodeFrame(e.window[i].frame, e.expectedTxSeq)],
                    [Info(e.history.acked + i, e.history.accepted)])
                 .(window := e.window[i := Again(e.window[i])])), None)
  }

  // ---------------------------------------------------------------------------
  // Input
  // ---------------------------------------------------------------------------

  function Acknowledge(e: Engine, newSeq: byte): Step {
    if newSeq >= 64 then Step(e, Some(SequenceOutOfRange)) else
    var count := SequenceDistance(e.lastAckedTxSeq, newSeq);
    if count > |e.window| then Step(e, Some(AcknowledgedTooMany))
    else if count == 0 then Step(e, None)
    else
      Step(RefreshDeadline(
             e.(window := e.window[count..], lastAckedTxSeq := newSeq,
                history := e.history.(acked := e.history.acked + count))), None)
  }

  // The receive queue and the SDU being reassembled.
  datatype Intake = Intake(received: seq<seq<byte>>, sdu: seq<byte>, length: Option<nat>, error: Option<Error>)

  function Reset(i: Intake, error: Error): Intake { Intake(i.received, [], None, Some(error)) }

  function CheckPartial(i: Intake): Intake {
    if i.length.Some? && |i.sdu| >= i.length.value then Reset(i, LengthReachedEarly) else i
  }

  function Accept(i: Intake, localMtu: u16, sar: Sar, payload: seq<byte>): Intake {
    match sar
    case Unsegmented =>
      if i.sdu != [] || i.length.Some? then Reset(i, InterruptedSdu)
      else if |payload| > localMtu then i.(error := Some(SduExceedsLocalMtu))
      else i.(received := i.received + [payload])
    case Start =>
      if |payload| < 2 then i.(error := Some(MissingSduLength))
      else if i.sdu != [] || i.length.Some? then Reset(i, InterruptedSdu)
      else
        var length := FromLe16(payload[0], payload[1]);
        if length > localMtu then i.(error := Some(SduExceedsLocalMtu))
        else CheckPartial(i.(length := Some(length), sdu := i.sdu + payload[2..]))
    case Continuation =>
      if i.length.None? then i.(error := Some(ContinuationWithoutStart))
      else CheckPartial(i.(sdu := i.sdu + payload))
    case End =>
      if i.length.None? then i.(error := Some(EndWithoutStart))
      else if |i.sdu + payload| != i.length.value then Reset(i, LengthMismatch)
      else Intake(i.received + [i.sdu + payload], [], None, i.error)
  }

  function AcceptInformation(e: Engine, sar: Sar, payload: seq<byte>): Step {
    var i := Accept(Intake(e.received, e.inputSdu, e.inputLength, None), e.config.localMtu, sar, payload);
    Step(e.(received := i.received, inputSdu := i.sdu, inputLength := i.length), i.error)
  }

  // ---------------------------------------------------------------------------
  // Public operations
  // ---------------------------------------------------------------------------

  function SendSdu(e: Engine, sdu: seq<byte>): Step
    requires ValidConfig(e.config)
  {
    if e.failed then Step(e, Some(EngineFailed))
    else if |sdu| > e.config.peerMtu then Step(e, Some(SduExceedsPeerMtu))
    else Step(ProcessOutput(QueueSegments(e, Segments(sdu, e.config.peerMps))), None)
  }

  // Send what can be sent, and a receiver-ready if nothing sent carried the acknowledgment.
  function OutputThenAcknowledge(e: Engine, finalBit: bool): Engine {
    var output := ProcessOutput(e);
    if output.lastAckedRxSeq != output.expectedTxSeq then SendSupervisory(output, ReceiverReady, false, finalBit)
    else output
  }

  function ReceiveInformation(e: Engine, txSeq: byte, finalBit: bool, sar: Sar, body: seq<byte>): Step {
    if e.localBusy then Step(SendSupervisory(e, ReceiverNotReady, false, finalBit), None)
    else if txSeq != e.expectedTxSeq then Step(SendSupervisory(e, Reject, false, finalBit), None)
    else
      var counted := e.(expectedTxSeq := SequenceAdd(e.expectedTxSeq, 1),
                        history := e.history.(accepted := e.history.accepted + 1));
      var accepted := AcceptInformation(counted, sar, body);
      if accepted.error.Some? then accepted
      else Step(OutputThenAcknowledge(accepted.engine, finalBit), None)
  }

  // The retransmission a supervisory frame asks for; `acked` tells whether it acknowledged anything.
  function Resent(e: Engine, acked: bool, f: SupervisoryFunction, finalBit: bool, reqSeq: byte): Step {
    if f == Reject then RetransmitAll(e)
    else if f == SelectiveReject then RetransmitOne(e, reqSeq)
    else if finalBit && !acked && e.window != [] then RetransmitAll(e)
    else Step(e, None)
  }

  function ReceiveSupervisory(
      e: Engine, acked: bool, f: SupervisoryFunction, poll: bool, finalBit: bool, reqSeq: byte): Step
  {
    var noted := e.(remoteBusy := f == ReceiverNotReady);
    var resent := Resent(noted, acked, f, finalBit, reqSeq);
    if resent.error.Some? then resent
    else
      var answered :=
        if poll then SendSupervisory(resent.engine, if resent.engine.localBusy then ReceiverNotReady else ReceiverReady,
                                     false, true)
        else resent.engine;
      Step(ProcessOutput(answered), None)
  }

  function ReceiveFrame(e: Engine, frame: seq<byte>): Step {
    if e.failed then Step(e, Some(EngineFailed))
    else
      match DecodeControl(frame)
      case Failure(error) => Step(e, Some(error))
      case Success(control) =>
        var acknowledged := Acknowledge(e, control.reqSeq);
        if acknowledged.error.Some? then acknowledged
        else
          match control
          case Information(txSeq, finalBit, _, sar) =>
            ReceiveInformation(acknowledged.engine, txSeq, finalBit, sar, frame[2..])
          case Supervisory(f, poll, finalBit, reqSeq) =>
            var acked := |acknowledged.engine.window| != |e.window|;
            ReceiveSupervisory(acknowledged.engine, acked, f, poll, finalBit, reqSeq)
  }

  function SetReceiverBusy(e: Engine, busy: bool): Step {
    if e.failed then Step(e, Some(EngineFailed))
    else if e.localBusy == busy then Step(e, None)
    else Step(SendSupervisory(e.(localBusy := busy), if busy then ReceiverNotReady else ReceiverReady, false, false),
              None)
  }

  function Tick(e: Engine, ticks: u32): Step {
    if e.failed then Step(e, Some(EngineFailed))
    else
      var later := e.(now := SaturatingAdd64(e.now, ticks));
      if later.deadline.Some? && later.now >= later.deadline.value && later.window != []
      then RetransmitAll(later) else Step(later, None)
  }

  // `poll_outbound`; the queue is unchanged when it is empty.
  function PollOutbound(e: Engine): Engine {
    if e.outbound == [] then e
    else e.(outbound := e.outbound[1..],
            history := e.history.(queued := if e.history.queued == [] then [] else e.history.queued[1..]))
  }

  // `pop_received`.
  function PopReceived(e: Engine): Engine {
    if e.received == [] then e else e.(received := e.received[1..])
  }

  // ---------------------------------------------------------------------------
  // No operation changes the configuration
  // ---------------------------------------------------------------------------

  lemma OutputKeepsConfig(e: Engine, txSeq: byte)
    ensures ProcessOutput(e).config == RetransmitAll(e).engine.config == RetransmitOne(e, txSeq).engine.config
            == e.config
  {
  }

  lemma ReceiveKeepsConfig(e: Engine, frame: seq<byte>)
    ensures ReceiveFrame(e, frame).engine.config == e.config
  {
    if !e.failed && DecodeControl(frame).Success? {
      var control := DecodeControl(frame).value;
      var a := Acknowledge(e, control.reqSeq);
      assert a.engine.config == e.config;
      if a.error.None? {
        match control
        case Information(txSeq, finalBit, _, sar) =>
          ReceiveInformationKeepsConfig(a.engine, txSeq, finalBit, sar, frame[2..]);
        case Supervisory(f, poll, finalBit, req) =>
          ReceiveSupervisoryKeepsConfig(a.engine, |a.engine.window| != |e.window|, f, poll, finalBit, req);
      }
    }
  }

  lemma ReceiveInformationKeepsConfig(e: Engine, txSeq: byte, finalBit: bool, sar: Sar, body: seq<byte>)
    ensures ReceiveInformation(e, txSeq, finalBit, sar, body).engine.config == e.config
  {
    hide ProcessOutput, Accept;
    var counted := e.(expectedTxSeq := SequenceAdd(e.expectedTxSeq, 1),
                      history := e.history.(accepted := e.history.accepted + 1));
    OutputKeepsConfig(AcceptInformation(counted, sar, body).engine, 0);
  }

  lemma ReceiveSupervisoryKeepsConfig(e: Engine, acked: bool, f: SupervisoryFunction, poll: bool, finalBit: bool,
                                      req: byte)
    ensures ReceiveSupervisory(e, acked, f, poll, finalBit, req).engine.config == e.config
  {
    hide ProcessOutput, RetransmitAll, RetransmitOne;
    var noted := e.(remoteBusy := f == ReceiverNotReady);
    OutputKeepsConfig(noted, req);
    var resent := Resent(noted, acked, f, finalBit, req).engine;
    OutputKeepsConfig(resent, req);
    OutputKeepsConfig(SendSupervisory(resent, if resent.localBusy then ReceiverNotReady else ReceiverReady, false,
                                      true), req);
  }

  lemma CallsKeepConfig(e: Engine, sdu: seq<byte>, busy: bool, ticks: u32)
    ensures ValidConfig(e.config) ==> SendSdu(e, sdu).engine.config == e.config
    ensures SetReceiverBusy(e, busy).engine.config == Tick(e, ticks).engine.config == e.config
  {
    hide ProcessOutput, RetransmitAll;
    if ValidConfig(e.config) && |sdu| <= e.config.peerMtu {
      OutputKeepsConfig(QueueSegments(e, Segments(sdu, e.config.peerMps)), 0);
    }
    OutputKeepsConfig(e.(now := SaturatingAdd64(e.now, ticks)), 0);
  }
}
