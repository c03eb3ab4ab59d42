/**
  * Two engines joined by first-in first-out links that may lose frames, under any
  * interleaving of sends, polls, deliveries, losses, clock ticks, busy toggles and
  * reads: what each side has delivered is always a prefix of what the other
  * submitted, and no received frame ever raises an acknowledgment or reassembly
  * error.
  */
module ErtmLink {
  import opened Bytes
  import opened Ertm
  import opened ErtmStream

  /**
    * One endpoint: its engine, what its user sent and read, and the errors it raised.
    * The engine's outbound queue is the whole link towards the peer: a frame polled
    * but still in transit is at the queue's front, and `Drop` loses any frame of it.
    */
  datatype Side = Side(engine: Engine, submitted: seq<seq<byte>>, popped: seq<seq<byte>>, raised: seq<Error>)

  datatype System = System(left: Side, right: Side)

  datatype Action =
    | Send(sdu: seq<byte>)
    | Deliver
    | Drop(index: nat)
    | Elapse(ticks: u32)
    | SetBusy(busy: bool)
    | Pop

  datatype Move = Move(byLeft: bool, action: Action)

  function Swap(s: System): System { System(s.right, s.left) }

  function Raised(raised: seq<Error>, error: Option<Error>): seq<Error> {
    if error.Some? then raised + [error.value] else raised
  }

  function Without<T>(s: seq<T>, i: nat): seq<T> {
    if i < |s| then s[..i] + s[i + 1..] else s
  }

  function Lose(e: Engine, i: nat): Engine {
    e.(outbound := Without(e.outbound, i), history := e.history.(queued := Without(e.history.queued, i)))
  }

  // An action of the left endpoint. `Deliver` takes the oldest frame off the right's link.
  function Act(s: System, action: Action): System
    requires ValidConfig(s.left.engine.config)
  {
    var l, r := s.left, s.right;
    match action
    case Send(sdu) =>
      var step := SendSdu(l.engine, sdu);
      System(l.(engine := step.engine, submitted := l.submitted + (if step.error.None? then [sdu] else [])), r)
    case Deliver =>
      if r.engine.outbound == [] then s
      else
        var step := ReceiveFrame(l.engine, r.engine.outbound[0]);
        System(l.(engine := step.engine, raised := Raised(l.raised, step.error)),
               r.(engine := PollOutbound(r.engine)))
    case Drop(i) => System(l.(engine := Lose(l.engine, i)), r)
    case Elapse(ticks) =>
      var step := Tick(l.engine, ticks);
      System(l.(engine := step.engine, raised := Raised(l.raised, step.error)), r)
    case SetBusy(busy) =>
      System(l.(engine := SetReceiverBusy(l.engine, busy).engine), r)
    case Pop =>
      if l.engine.received == [] then s
      else System(l.(engine := PopReceived(l.engine), popped := l.popped + [l.engine.received[0]]), r)
  }

  predicate ValidConfigs(s: System) {
    ValidConfig(s.left.engine.config) && ValidConfig(s.right.engine.config)
  }

  function Apply(s: System, move: Move): System
    requires ValidConfigs(s)
  {
    if move.byLeft then Act(s, move.action) else Swap(Act(Swap(s), move.action))
  }

  function Begin(leftConfig: Config, rightConfig: Config): System {
    System(Side(Fresh(leftConfig), [], [], []), Side(Fresh(rightConfig), [], [], []))
  }

  // ---------------------------------------------------------------------------
  // The invariant, one direction of data at a time
  // ---------------------------------------------------------------------------

  function Sent(e: Engine): nat { e.history.acked + |e.window| }

  function FrameAt(stream: seq<Segment>, serial: nat): PendingFrame
    requires serial < |stream|
  {
    PendingFrame(stream[serial], serial % 64)
  }

  predicate Submittable(config: Config, submitted: seq<seq<byte>>) {
    && ValidConfig(config)
    && Encodable(submitted)
    && forall sdu <- submitted :: |sdu| <= config.peerMtu
  }

  // The window, then the pending queue, are the stream from the first unacknowledged frame on.
  predicate WindowOk(
      window: seq<TransmittedFrame>, pending: seq<PendingFrame>, size: nat, acked: nat, stream: seq<Segment>)
  {
    && acked + |window| + |pending| == |stream|
    && |window| <= size < 64
    && (forall i :: 0 <= i < |window| ==> window[i].frame == FrameAt(stream, acked + i))
    && (forall i :: 0 <= i < |pending| ==> pending[i] == FrameAt(stream, acked + |window| + i))
  }

  lemma WindowTail(
      window: seq<TransmittedFrame>, pending: seq<PendingFrame>, size: nat, acked: nat, stream: seq<Segment>, n: nat)
    requires WindowOk(window, pending, size, acked, stream) && n <= |window|
    ensures WindowOk(window[n..], pending, size, acked + n, stream)
  {
    assert forall i :: 0 <= i < |window| - n ==> window[n..][i] == window[n + i];
  }

  lemma WindowAdvances(
      window: seq<TransmittedFrame>, pending: seq<PendingFrame>, size: nat, acked: nat, stream: seq<Segment>, n: nat)
    requires WindowOk(window, pending, size, acked, stream) && n <= |pending| && |window| + n <= size
    ensures WindowOk(window + FirstTransmissions(pending[..n]), pending[n..], size, acked, stream)
  {
    assert forall i :: 0 <= i < n ==> pending[..n][i] == pending[i];
    assert forall i :: 0 <= i < |pending[n..]| ==> pending[n..][i] == pending[n + i];
  }

  lemma WindowAgain(
      window: seq<TransmittedFrame>, pending: seq<PendingFrame>, size: nat, acked: nat, stream: seq<Segment>)
    requires WindowOk(window, pending, size, acked, stream)
    ensures WindowOk(AllAgain(window), pending, size, acked, stream)
  {
  }

  predicate SenderOk(e: Engine, stream: seq<Segment>) {
    && WindowOk(e.window, e.pending, e.config.txWindowSize, e.history.acked, stream)
    && e.nextTxSeq == |stream| % 64
    && e.lastAckedTxSeq == e.history.acked % 64
  }

  // The bytes a tag stands for.
  function Render(tag: Tag, stream: seq<Segment>): seq<byte>
    requires tag.Info? ==> tag.serial < |stream|
  {
    match tag
    case Info(serial, req) => EncodeFrame(FrameAt(stream, serial), req % 64)
    case Super(f, poll, finalBit, req) => EncodeSupervisory(f, poll, finalBit, req % 64)
  }

  // A frame these engines send: serial below `sent`, never a poll, a final bit or a selective reject.
  predicate Genuine(tag: Tag, frame: seq<byte>, stream: seq<Segment>, sent: nat) {
    && (tag.Info? ==> tag.serial < sent <= |stream|)
    && (tag.Super? ==> tag.function_ != SelectiveReject && !tag.poll && !tag.finalBit)
    && frame == Render(tag, stream)
  }

  // Whatever is queued behind an old frame is less than a modulus ahead of it.
  predicate QueueOk(tags: seq<Tag>, frames: seq<seq<byte>>, stream: seq<Segment>, sent: nat, accepted: nat) {
    && |tags| == |frames|
    && (forall i :: 0 <= i < |tags| ==> Genuine(tags[i], frames[i], stream, sent))
    && (forall i :: 0 <= i < |tags| && tags[i].Info? ==> accepted < tags[i].serial + 64)
    && (forall i, j :: 0 <= i < j < |tags| && tags[i].Info? && tags[j].Info? ==>
          tags[i].serial + 1 < tags[j].serial + 64)
  }

  // Acknowledgments on a link never go back, and never beyond what was accepted.
  predicate AcksOk(tags: seq<Tag>, acked: nat, accepted: nat) {
    && (forall i :: 0 <= i < |tags| ==> acked <= tags[i].req <= accepted)
    && (forall i, j :: 0 <= i < j < |tags| ==> tags[i].req <= tags[j].req)
  }

  // The receiver has accepted a prefix of the stream, and holds exactly its reassembly.
  predicate ReceiverOk(e: Engine, popped: seq<seq<byte>>, stream: seq<Segment>, acked: nat, sent: nat) {
    && acked <= e.history.accepted <= sent <= |stream|
    && e.expectedTxSeq == e.history.accepted % 64
    && Assemble(NOTHING, stream[..e.history.accepted])
       == Assembly(popped + e.received, e.inputSdu, e.inputLength, true)
  }

  function StreamOf(x: Side): seq<Segment>
    requires Submittable(x.engine.config, x.submitted)
  {
    Stream(x.submitted, x.engine.config.peerMps)
  }

  predicate Tolerable(error: Error) { error == EngineFailed || error.RetransmissionLimit? }

  // Data flowing from `x` to `y`, and the acknowledgments `x` sends along.
  predicate Half(x: Side, y: Side) {
    && Submittable(x.engine.config, x.submitted)
    && x.engine.config.peerMtu <= y.engine.config.localMtu
    && SenderOk(x.engine, StreamOf(x))
    && QueueOk(x.engine.history.queued, x.engine.outbound, StreamOf(x), Sent(x.engine), y.engine.history.accepted)
    && AcksOk(x.engine.history.queued, y.engine.history.acked, x.engine.history.accepted)
    && ReceiverOk(y.engine, y.popped, StreamOf(x), x.engine.history.acked, Sent(x.engine))
    && forall error <- x.raised :: Tolerable(error)
  }

  predicate Inv(s: System) { Half(s.left, s.right) && Half(s.right, s.left) }

  // ---------------------------------------------------------------------------
  // Emission: what the output routines do
  // ---------------------------------------------------------------------------

  predicate GoodEmission(e: Engine, tag: Tag, frame: seq<byte>, stream: seq<Segment>) {
    && Genuine(tag, frame, stream, Sent(e))
    && (tag.Info? ==> e.history.acked <= tag.serial)
    && tag.req == e.history.accepted
  }

  // From `e` to `d` the engine only sent window frames and supervisory frames.
  predicate Emission(e: Engine, d: Engine, stream: seq<Segment>) {
    && d.config == e.config
    && d.received == e.received && d.inputSdu == e.inputSdu && d.inputLength == e.inputLength
    && d.expectedTxSeq == e.expectedTxSeq
    && d.history.acked == e.history.acked && d.history.accepted == e.history.accepted
    && |d.window| >= |e.window|
    && e.outbound <= d.outbound && e.history.queued <= d.history.queued
    && |d.outbound| - |e.outbound| == |d.history.queued| - |e.history.queued|
    && |e.outbound| == |e.history.queued|
    && SenderOk(d, stream)
    && forall i :: |e.outbound| <= i < |d.outbound| ==>
         GoodEmission(d, d.history.queued[i], d.outbound[i], stream)
  }

  lemma EmissionTransitive(a: Engine, b: Engine, c: Engine, stream: seq<Segment>)
    requires Emission(a, b, stream) && Emission(b, c, stream)
    ensures Emission(a, c, stream)
  {
    forall i | |a.outbound| <= i < |c.outbound|
      ensures GoodEmission(c, c.history.queued[i], c.outbound[i], stream)
    {
      if i < |b.outbound| {
        assert GoodEmission(b, b.history.queued[i], b.outbound[i], stream);
      }
    }
  }

  // What an engine must satisfy for its output routines.
  predicate Ready(e: Engine, stream: seq<Segment>) {
    && SenderOk(e, stream)
    && |e.outbound| == |e.history.queued|
    && e.expectedTxSeq == e.history.accepted % 64
  }

  /** Moving pending frames into the window emits exactly those frames. */
  lemma AdvanceEmits(e: Engine, n: nat, stream: seq<Segment>)
    requires Ready(e, stream) && n <= |e.pending| && |e.window| + n <= e.config.txWindowSize
    ensures Emission(e, Advance(e, n), stream)
  {
    if n > 0 {
      var d := Advance(e, n);
      WindowAdvances(e.window, e.pending, e.config.txWindowSize, e.history.acked, stream, n);
      forall i | |e.outbound| <= i < |d.outbound|
        ensures GoodEmission(d, d.history.queued[i], d.outbound[i], stream)
      {
        assert e.pending[i - |e.outbound|] == FrameAt(stream, Sent(e) + i - |e.outbound|);
      }
    }
  }

  lemma DeadlineEmits(e: Engine, d: Engine, stream: seq<Segment>)
    requires Emission(e, d, stream)
    ensures Emission(e, RefreshDeadline(d), stream)
  {
    var r := RefreshDeadline(d);
    assert SenderOk(r, stream);
    assert forall i :: |e.outbound| <= i < |d.outbound| ==>
                         GoodEmission(d, d.history.queued[i], d.outbound[i], stream)
                         ==> GoodEmission(r, r.history.queued[i], r.outbound[i], stream);
  }

  lemma ProcessOutputEmits(e: Engine, stream: seq<Segment>)
    requires Ready(e, stream)
    ensures Emission(e, ProcessOutput(e), stream)
  {
    if !e.remoteBusy {
      AdvanceEmits(e, Room(e), stream);
      DeadlineEmits(e, Advance(e, Room(e)), stream);
    }
  }

  lemma SupervisoryEmits(e: Engine, f: SupervisoryFunction, stream: seq<Segment>)
    requires Ready(e, stream) && f != SelectiveReject
    ensures Emission(e, SendSupervisory(e, f, false, false), stream)
  {
  }

  /** Sending the whole window again emits exactly the outstanding frames. */
  lemma ResendEmits(e: Engine, stream: seq<Segment>)
    requires Ready(e, stream)
    ensures Emission(e, Resend(e), stream)
  {
    var d := Resend(e);
    WindowAgain(e.window, e.pending, e.config.txWindowSize, e.history.acked, stream);
    forall i | |e.outbound| <= i < |d.outbound|
      ensures GoodEmission(d, d.history.queued[i], d.outbound[i], stream)
    {
      assert e.window[i - |e.outbound|].frame == FrameAt(stream, e.history.acked + i - |e.outbound|);
    }
  }

  lemma RetransmitAllEmits(e: Engine, stream: seq<Segment>)
    requires Ready(e, stream)
    ensures Emission(e, RetransmitAll(e).engine, stream)
    ensures RetransmitAll(e).error.Some? ==> Tolerable(RetransmitAll(e).error.value)
  {
    ResendEmits(e, stream);
    DeadlineEmits(e, Resend(e), stream);
    assert Emission(e, e.(failed := true), stream) && Emission(e, e, stream);
    DeadlineEmits(e, e, stream);
  }

  /** Emitted frames join the queue without breaking it. */
  lemma QueueGrows(e: Engine, d: Engine, stream: seq<Segment>, accepted: nat, low: nat)
    requires Ready(e, stream) && Emission(e, d, stream)
    requires QueueOk(e.history.queued, e.outbound, stream, Sent(e), accepted)
    requires AcksOk(e.history.queued, low, e.history.accepted) && low <= e.history.accepted
    requires e.history.acked <= accepted <= Sent(e)
    ensures QueueOk(d.history.queued, d.outbound, stream, Sent(d), accepted)
    ensures AcksOk(d.history.queued, low, d.history.accepted)
  {
    var t, f, n := d.history.queued, d.outbound, |e.outbound|;
    forall i | 0 <= i < |t|
      ensures Genuine(t[i], f[i], stream, Sent(d))
      ensures t[i].Info? ==> accepted < t[i].serial + 64
      ensures low <= t[i].req <= d.history.accepted
      ensures i >= n ==> t[i].req == d.history.accepted && (t[i].Info? ==> d.history.acked <= t[i].serial)
    {
      if i < n {
        assert t[i] == e.history.queued[i] && f[i] == e.outbound[i];
        assert Genuine(e.history.queued[i], e.outbound[i], stream, Sent(e));
      } else {
        assert GoodEmission(d, t[i], f[i], stream);
      }
    }
    forall i, j | 0 <= i < j < |t|
      ensures t[i].Info? && t[j].Info? ==> t[i].serial + 1 < t[j].serial + 64
      ensures t[i].req <= t[j].req
    {
      assert i < n ==> t[i] == e.history.queued[i];
      if j < n {
        assert t[j] == e.history.queued[j];
      } else {
        assert GoodEmission(d, t[j], f[j], stream) && Genuine(t[i], f[i], stream, Sent(d));
      }
    }
  }

  // ---------------------------------------------------------------------------
  // Each phase of each action keeps both directions
  // ---------------------------------------------------------------------------

  /** What the rest of the proof uses of the two directions. */
  lemma Facts(x: Side, y: Side)
    requires Half(x, y) && Half(y, x)
    ensures Submittable(x.engine.config, x.submitted) && Submittable(y.engine.config, y.submitted)
    ensures Ready(x.engine, StreamOf(x)) && x.engine.history.accepted % 64 == x.engine.expectedTxSeq
    ensures y.engine.history.acked <= x.engine.history.accepted <= Sent(y.engine) <= |StreamOf(y)|
    ensures Sent(y.engine) < y.engine.history.acked + 64
  {
  }

  lemma EmissionKeeps(x: Side, y: Side, d: Engine)
    requires Half(x, y) && Half(y, x) && Emission(x.engine, d, StreamOf(x))
    ensures Half(x.(engine := d), y) && Half(y, x.(engine := d))
  {
    QueueGrows(x.engine, d, StreamOf(x), y.engine.history.accepted, y.engine.history.acked);
  }

  function Popped(y: Side): Side { y.(engine := PollOutbound(y.engine)) }

  lemma QueueTail(tags: seq<Tag>, frames: seq<seq<byte>>, stream: seq<Segment>, sent: nat, accepted: nat)
    requires tags != [] && QueueOk(tags, frames, stream, sent, accepted)
    ensures QueueOk(tags[1..], frames[1..], stream, sent, accepted)
  {
    var t, f := tags[1..], frames[1..];
    assert forall i :: 0 <= i < |t| ==> t[i] == tags[i + 1] && f[i] == frames[i + 1];
  }

  lemma AcksTail(tags: seq<Tag>, acked: nat, accepted: nat)
    requires tags != [] && AcksOk(tags, acked, accepted)
    ensures AcksOk(tags[1..], acked, accepted)
  {
    var t := tags[1..];
    assert forall i :: 0 <= i < |t| ==> t[i] == tags[i + 1];
  }

  /** Taking the oldest frame off a link. */
  lemma PoppedKeeps(x: Side, y: Side)
    requires Half(x, y) && Half(y, x) && y.engine.outbound != []
    ensures Half(x, Popped(y)) && Half(Popped(y), x)
  {
    QueueTail(y.engine.history.queued, y.engine.outbound, StreamOf(y), Sent(y.engine), x.engine.history.accepted);
    AcksTail(y.engine.history.queued, x.engine.history.acked, y.engine.history.accepted);
  }

  /** The oldest frame bounds whatever follows it. */
  lemma OldestBounds(tags: seq<Tag>, frames: seq<seq<byte>>, stream: seq<Segment>, sent: nat, accepted: nat, low: nat,
                     high: nat)
    requires tags != [] && QueueOk(tags, frames, stream, sent, accepted) && AcksOk(tags, low, high)
    ensures tags[0].Info? ==> forall tag <- tags[1..] :: tag.Info? ==> tags[0].serial + 1 < tag.serial + 64
    ensures forall tag <- tags[1..] :: tags[0].req <= tag.req
  {
    assert forall i :: 0 <= i < |tags[1..]| ==> tags[1..][i] == tags[i + 1];
  }

  /** Acknowledging a count that is not beyond the window drops exactly that many frames. */
  lemma AcknowledgeSender(e: Engine, stream: seq<Segment>, req: nat)
    requires SenderOk(e, stream) && e.history.acked <= req <= Sent(e)
    ensures var a := Acknowledge(e, req % 64);
            && a.error.None?
            && a.engine == e.(window := e.window[req - e.history.acked..], lastAckedTxSeq := req % 64,
                              deadline := a.engine.deadline, history := e.history.(acked := req))
            && SenderOk(a.engine, stream)
            && Sent(a.engine) == Sent(e)
  {
    DistanceIsExact(e.history.acked, req);
    WindowTail(e.window, e.pending, e.config.txWindowSize, e.history.acked, stream, req - e.history.acked);
    assert e.window[0..] == e.window;
  }

  /** The acknowledgment on the oldest frame is never more than is outstanding, and frees exactly what was accepted. */
  lemma AcknowledgeKeeps(x: Side, y: Side, req: nat)
    requires Half(x, y) && Half(y, x)
    requires x.engine.history.acked <= req <= y.engine.history.accepted
    requires forall tag <- y.engine.history.queued :: req <= tag.req
    ensures Acknowledge(x.engine, req % 64).error.None?
    ensures var x' := x.(engine := Acknowledge(x.engine, req % 64).engine);
            && Half(x', y) && Half(y, x')
            && x'.engine.history.accepted == x.engine.history.accepted
            && x'.engine.localBusy == x.engine.localBusy
            && StreamOf(x') == StreamOf(x)
  {
    AcknowledgeSender(x.engine, StreamOf(x), req);
    assert AcksOk(y.engine.history.queued, req, y.engine.history.accepted);
  }

  /** Accepting the expected segment is one reassembly step, and cannot fail. */
  lemma AcceptMatchesFeed(i: Intake, popped: seq<seq<byte>>, s: Segment, localMtu: u16)
    requires WellFormed(s, localMtu) && i.error.None?
    requires Feed(Assembly(popped + i.received, i.sdu, i.length, true), s).ok
    ensures var a := Accept(i, localMtu, s.sar, Body(s));
            && a.error.None?
            && Feed(Assembly(popped + i.received, i.sdu, i.length, true), s)
               == Assembly(popped + a.received, a.sdu, a.length, true)
  {
    var a := Accept(i, localMtu, s.sar, Body(s));
    if s.sar == Start {
      assert Body(s)[2..] == s.payload;
    } else {
      assert Body(s) == s.payload;
    }
    if s.sar == Unsegmented || s.sar == End {
      assert popped + a.received == (popped + i.received) + [a.received[|i.received|]];
    }
  }

  function Counted(e: Engine): Engine {
    e.(expectedTxSeq := SequenceAdd(e.expectedTxSeq, 1), history := e.history.(accepted := e.history.accepted + 1))
  }

  /** The receiver's half of accepting the next frame in sequence. */
  lemma AcceptReceives(e: Engine, popped: seq<seq<byte>>, sdus: seq<seq<byte>>, config: Config, acked: nat, sent: nat)
    requires Submittable(config, sdus) && config.peerMtu <= e.config.localMtu
    requires ReceiverOk(e, popped, Stream(sdus, config.peerMps), acked, sent) && e.history.accepted < sent
    ensures var s := Stream(sdus, config.peerMps)[e.history.accepted];
            var a := AcceptInformation(Counted(e), s.sar, Body(s));
            a.error.None? && ReceiverOk(a.engine, popped, Stream(sdus, config.peerMps), acked, sent)
  {
    var stream, k := Stream(sdus, config.peerMps), e.history.accepted;
    StreamWellFormed(sdus, config.peerMps, config.peerMtu);
    assert stream[k] in stream;
    PrefixReassembles(sdus, config.peerMps, k + 1);
    AssembleNext(stream, k);
    AddOneWraps(k);
    AcceptMatchesFeed(Intake(e.received, e.inputSdu, e.inputLength, None), popped, stream[k], e.config.localMtu);
  }

  /** Accepting the next frame in sequence. */
  lemma AcceptKeeps(x: Side, y: Side)
    requires Half(x, y) && Half(y, x)
    requires x.engine.history.accepted < Sent(y.engine)
    requires forall tag <- y.engine.history.queued :: tag.Info? ==> x.engine.history.accepted + 1 < tag.serial + 64
    ensures var s := StreamOf(y)[x.engine.history.accepted];
            var a := AcceptInformation(Counted(x.engine), s.sar, Body(s));
            && a.error.None?
            && a.engine.config == x.engine.config
            && Half(x.(engine := a.engine), y) && Half(y, x.(engine := a.engine))
  {
    AcceptReceives(x.engine, x.popped, y.submitted, y.engine.config, y.engine.history.acked, Sent(y.engine));
    assert QueueOk(y.engine.history.queued, y.engine.outbound, StreamOf(y), Sent(y.engine),
                   x.engine.history.accepted + 1);
    assert AcksOk(x.engine.history.queued, y.engine.history.acked, x.engine.history.accepted + 1);
  }

  /** After the acknowledgment, a supervisory frame only makes the engine send. */
  lemma ReceiveSupervisoryEmits(e: Engine, acked: bool, f: SupervisoryFunction, req: byte, stream: seq<Segment>)
    requires Ready(e, stream) && f != SelectiveReject
    ensures var r := ReceiveSupervisory(e, acked, f, false, false, req);
            && Emission(e, r.engine, stream)
            && (r.error.Some? ==> Tolerable(r.error.value))
  {
    var noted := e.(remoteBusy := f == ReceiverNotReady);
    assert Emission(e, noted, stream);
    var resent := if f == Reject then RetransmitAll(noted) else Step(noted, None);
    if f == Reject {
      RetransmitAllEmits(noted, stream);
      EmissionTransitive(e, noted, resent.engine, stream);
    }
    if resent.error.None? {
      ProcessOutputEmits(resent.engine, stream);
      EmissionTransitive(e, resent.engine, ProcessOutput(resent.engine), stream);
    }
  }

  /** After accepting a frame, the engine sends what it can and otherwise acknowledges. */
  lemma OutputThenAcknowledgeEmits(e: Engine, stream: seq<Segment>)
    requires Ready(e, stream)
    ensures Emission(e, OutputThenAcknowledge(e, false), stream)
  {
    var o := ProcessOutput(e);
    ProcessOutputEmits(e, stream);
    SupervisoryEmits(o, ReceiverReady, stream);
    EmissionTransitive(e, o, SendSupervisory(o, ReceiverReady, false, false), stream);
  }

  /**
    * An information frame off the link: refused while busy, rejected out of sequence, accepted exactly when it is the
    * next.
    */
  lemma ReceiveInformationKeeps(x: Side, y: Side, serial: nat)
    requires Half(x, y) && Half(y, x)
    requires serial < Sent(y.engine) && x.engine.history.accepted < serial + 64
    requires forall tag <- y.engine.history.queued :: tag.Info? ==> serial + 1 < tag.serial + 64
    ensures var s := StreamOf(y)[serial];
            var r := ReceiveInformation(x.engine, serial % 64, false, s.sar, Body(s));
            && r.error.None?
            && Half(x.(engine := r.engine), y) && Half(y, x.(engine := r.engine))
  {
    hide Half, Emission, Ready, OutputThenAcknowledge, SendSupervisory, AcceptInformation;
    Facts(x, y);
    var e, s := x.engine, StreamOf(y)[serial];
    var r := ReceiveInformation(e, serial % 64, false, s.sar, Body(s));
    if e.localBusy {
      SupervisoryEmits(e, ReceiverNotReady, StreamOf(x));
      EmissionKeeps(x, y, r.engine);
    } else if serial % 64 != e.expectedTxSeq {
      SupervisoryEmits(e, Reject, StreamOf(x));
      EmissionKeeps(x, y, r.engine);
    } else {
      CongruentAndClose(serial, e.history.accepted);
      AcceptKeeps(x, y);
      var accepted := AcceptInformation(Counted(e), s.sar, Body(s)).engine;
      var x1 := x.(engine := accepted);
      Facts(x1, y);
      OutputThenAcknowledgeEmits(accepted, StreamOf(x1));
      EmissionKeeps(x1, y, r.engine);
    }
  }

  lemma ReceiveSupervisoryKeeps(x: Side, y: Side, acked: bool, f: SupervisoryFunction, req: byte)
    requires Half(x, y) && Half(y, x) && f != SelectiveReject
    ensures var r := ReceiveSupervisory(x.engine, acked, f, false, false, req);
            && (r.error.Some? ==> Tolerable(r.error.value))
            && Half(x.(engine := r.engine), y) && Half(y, x.(engine := r.engine))
  {
    hide Half, Emission, Ready, ReceiveSupervisory;
    Facts(x, y);
    ReceiveSupervisoryEmits(x.engine, acked, f, req, StreamOf(x));
    EmissionKeeps(x, y, ReceiveSupervisory(x.engine, acked, f, false, false, req).engine);
  }

  /** Taking the oldest frame and acting on its acknowledgment; what that frame says about the rest of the link. */
  lemma PopAndAcknowledge(x: Side, y: Side)
    requires Half(x, y) && Half(y, x) && y.engine.outbound != []
    ensures var tag, z := y.engine.history.queued[0], Popped(y);
            var a := Acknowledge(x.engine, tag.req % 64);
            && Genuine(tag, y.engine.outbound[0], StreamOf(y), Sent(y.engine))
            && a.error.None?
            && Half(x.(engine := a.engine), z) && Half(z, x.(engine := a.engine))
            && (tag.Info? ==> a.engine.history.accepted < tag.serial + 64
                              && forall t <- z.engine.history.queued :: t.Info? ==> tag.serial + 1 < t.serial + 64)
  {
    var tag, z := y.engine.history.queued[0], Popped(y);
    assert Genuine(tag, y.engine.outbound[0], StreamOf(y), Sent(y.engine));
    PoppedKeeps(x, y);
    OldestBounds(y.engine.history.queued, y.engine.outbound, StreamOf(y), Sent(y.engine), x.engine.history.accepted,
                 x.engine.history.acked, y.engine.history.accepted);
    AcknowledgeKeeps(x, z, tag.req);
  }

  lemma QueueAligned(x: Side, y: Side)
    requires Half(x, y) && Half(y, x)
    ensures Submittable(y.engine.config, y.submitted)
    ensures |y.engine.outbound| == |y.engine.history.queued|
  {
  }

  /** A genuine frame, once its acknowledgment is taken, goes to the handler its tag names. */
  lemma ReceiveDispatches(e: Engine, tag: Tag, frame: seq<byte>, stream: seq<Segment>, sent: nat)
    requires Genuine(tag, frame, stream, sent) && !e.failed
    requires Acknowledge(e, tag.req % 64).error.None?
    ensures var a := Acknowledge(e, tag.req % 64).engine;
            && (tag.Info? ==>
                  ReceiveFrame(e, frame)
                  == ReceiveInformation(a, tag.serial % 64, false, stream[tag.serial].sar, Body(stream[tag.serial])))
            && (tag.Super? ==>
                  ReceiveFrame(e, frame)
                  == ReceiveSupervisory(a, |a.window| != |e.window|, tag.function_, false, false, tag.req % 64))
  {
    hide Acknowledge, ReceiveInformation, ReceiveSupervisory, DecodeControl, EncodeFrame, EncodeSupervisory,
         EncodeControl;
    match tag
    case Info(serial, req) => FrameEncodings(FrameAt(stream, serial), ReceiverReady, false, false, req % 64);
    case Super(f, _, _, req) =>
      FrameEncodings(PendingFrame(Segment([], Unsegmented, None), 0), f, false, false, req % 64);
  }

  /** Delivering the oldest frame keeps the invariant and raises nothing but an exhausted retransmission limit. */
  lemma ReceiveKeeps(x: Side, y: Side)
    requires Half(x, y) && Half(y, x) && y.engine.outbound != [] && !x.engine.failed
    ensures var r := ReceiveFrame(x.engine, y.engine.outbound[0]);
            && (r.error.Some? ==> Tolerable(r.error.value))
            && Half(x.(engine := r.engine), Popped(y)) && Half(Popped(y), x.(engine := r.engine))
  {
    hide Half, ReceiveFrame, ReceiveInformation, ReceiveSupervisory, Acknowledge;
    QueueAligned(x, y);
    var tag, frame, z := y.engine.history.queued[0], y.engine.outbound[0], Popped(y);
    PopAndAcknowledge(x, y);
    ReceiveDispatches(x.engine, tag, frame, StreamOf(y), Sent(y.engine));
    var x1 := x.(engine := Acknowledge(x.engine, tag.req % 64).engine);
    match tag
    case Info(serial, _) => ReceiveInformationKeeps(x1, z, serial);
    case Super(f, _, _, req) => ReceiveSupervisoryKeeps(x1, z, |x1.engine.window| != |x.engine.window|, f, req % 64);
  }

  // ---------------------------------------------------------------------------
  // The other actions
  // ---------------------------------------------------------------------------

  lemma NumberingContinues(segments: seq<Segment>, stream: seq<Segment>, i: nat)
    requires i < |segments|
    ensures Number(segments, |stream| % 64)[i] == FrameAt(stream + segments, |stream| + i)
  {
  }

  lemma WindowExtends(
      window: seq<TransmittedFrame>, pending: seq<PendingFrame>, size: nat, acked: nat,
      stream: seq<Segment>, segments: seq<Segment>)
    requires WindowOk(window, pending, size, acked, stream)
    ensures WindowOk(window, pending + Number(segments, |stream| % 64), size, acked, stream + segments)
  {
    forall i | 0 <= i < |segments|
      ensures Number(segments, |stream| % 64)[i] == FrameAt(stream + segments, |stream| + i)
    {
      NumberingContinues(segments, stream, i);
    }
  }

  lemma QueueStreamExtends(
      tags: seq<Tag>, frames: seq<seq<byte>>, stream: seq<Segment>, segments: seq<Segment>, sent: nat, accepted: nat)
    requires QueueOk(tags, frames, stream, sent, accepted)
    ensures QueueOk(tags, frames, stream + segments, sent, accepted)
  {
    forall i | 0 <= i < |tags| ensures Genuine(tags[i], frames[i], stream + segments, sent) {
      assert Genuine(tags[i], frames[i], stream, sent);
    }
  }

  // The endpoint once `send_sdu` has queued the segments of `sdu`.
  function Queued(x: Side, sdu: seq<byte>): Side
    requires Submittable(x.engine.config, x.submitted) && |sdu| <= x.engine.config.peerMtu
  {
    x.(engine := QueueSegments(x.engine, Segments(sdu, x.engine.config.peerMps)), submitted := x.submitted + [sdu])
  }

  lemma QueueSegmentsKeepsSender(e: Engine, stream: seq<Segment>, segments: seq<Segment>)
    requires SenderOk(e, stream)
    ensures SenderOk(QueueSegments(e, segments), stream + segments)
  {
    WindowExtends(e.window, e.pending, e.config.txWindowSize, e.history.acked, stream, segments);
  }

  lemma ReceiverStreamExtends(
      e: Engine, popped: seq<seq<byte>>, stream: seq<Segment>, segments: seq<Segment>, acked: nat, sent: nat)
    requires ReceiverOk(e, popped, stream, acked, sent)
    ensures ReceiverOk(e, popped, stream + segments, acked, sent)
  {
    assert (stream + segments)[..e.history.accepted] == stream[..e.history.accepted];
  }

  lemma SubmissionExtends(config: Config, submitted: seq<seq<byte>>, sdu: seq<byte>)
    requires Submittable(config, submitted) && |sdu| <= config.peerMtu
    ensures Submittable(config, submitted + [sdu])
    ensures Stream(submitted + [sdu], config.peerMps) == Stream(submitted, config.peerMps)
            + Segments(sdu, config.peerMps)
  {
    StreamExtends(submitted, sdu, config.peerMps);
  }

  lemma QueuedKeeps(x: Side, y: Side, sdu: seq<byte>)
    requires Half(x, y) && Half(y, x) && |sdu| <= x.engine.config.peerMtu
    ensures Half(Queued(x, sdu), y) && Half(y, Queued(x, sdu))
  {
    var e, segments, stream := x.engine, Segments(sdu, x.engine.config.peerMps), StreamOf(x);
    SubmissionExtends(e.config, x.submitted, sdu);
    QueueSegmentsKeepsSender(e, stream, segments);
    QueueStreamExtends(e.history.queued, e.outbound, stream, segments, Sent(e), y.engine.history.accepted);
    ReceiverStreamExtends(y.engine, y.popped, stream, segments, e.history.acked, Sent(e));
  }

  lemma SendKeeps(x: Side, y: Side, sdu: seq<byte>)
    requires Half(x, y) && Half(y, x) && SendSdu(x.engine, sdu).error.None?
    ensures var x' := x.(engine := SendSdu(x.engine, sdu).engine, submitted := x.submitted + [sdu]);
            Half(x', y) && Half(y, x')
  {
    hide Half, Emission, Ready, ProcessOutput, Segments, QueueSegments;
    Facts(x, y);
    var q := Queued(x, sdu);
    QueuedKeeps(x, y, sdu);
    Facts(q, y);
    ProcessOutputEmits(q.engine, StreamOf(q));
    EmissionKeeps(q, y, ProcessOutput(q.engine));
  }

  function Shift(j: nat, i: nat): nat { if j < i then j else j + 1 }

  lemma WithoutAt<T>(s: seq<T>, i: nat, j: nat)
    requires i < |s| && j < |s| - 1
    ensures |Without(s, i)| == |s| - 1 && Without(s, i)[j] == s[Shift(j, i)]
  {
  }

  lemma QueueWithout(tags: seq<Tag>, frames: seq<seq<byte>>, stream: seq<Segment>, sent: nat, accepted: nat, i: nat)
    requires QueueOk(tags, frames, stream, sent, accepted) && i < |tags|
    ensures QueueOk(Without(tags, i), Without(frames, i), stream, sent, accepted)
  {
    forall j: nat | j < |tags| - 1
      ensures Without(tags, i)[j] == tags[Shift(j, i)] && Without(frames, i)[j] == frames[Shift(j, i)]
    {
      WithoutAt(tags, i, j);
      WithoutAt(frames, i, j);
    }
    QueueMapped(tags, frames, Without(tags, i), Without(frames, i), stream, sent, accepted, i);
  }

  lemma QueueMapped(
      tags: seq<Tag>, frames: seq<seq<byte>>, t: seq<Tag>, f: seq<seq<byte>>,
      stream: seq<Segment>, sent: nat, accepted: nat, i: nat)
    requires QueueOk(tags, frames, stream, sent, accepted)
    requires |t| == |f| == |tags| - 1
    requires forall j: nat :: j < |t| ==> t[j] == tags[Shift(j, i)] && f[j] == frames[Shift(j, i)]
    ensures QueueOk(t, f, stream, sent, accepted)
  {
  }

  lemma AcksWithout(tags: seq<Tag>, acked: nat, accepted: nat, i: nat)
    requires AcksOk(tags, acked, accepted) && i < |tags|
    ensures AcksOk(Without(tags, i), acked, accepted)
  {
    forall j: nat | j < |tags| - 1 ensures Without(tags, i)[j] == tags[Shift(j, i)] {
      WithoutAt(tags, i, j);
    }
  }

  lemma DropKeeps(x: Side, y: Side, i: nat)
    requires Half(x, y) && Half(y, x)
    ensures var x' := x.(engine := Lose(x.engine, i)); Half(x', y) && Half(y, x')
  {
    if i < |x.engine.outbound| {
      QueueWithout(x.engine.history.queued, x.engine.outbound, StreamOf(x), Sent(x.engine), y.engine.history.accepted,
                   i);
      AcksWithout(x.engine.history.queued, y.engine.history.acked, x.engine.history.accepted, i);
    }
  }

  lemma LaterEmits(e: Engine, now: u64, stream: seq<Segment>)
    requires Ready(e, stream)
    ensures Emission(e, e.(now := now), stream)
  {
  }

  lemma ElapseKeeps(x: Side, y: Side, ticks: u32)
    requires Half(x, y) && Half(y, x) && !x.engine.failed
    ensures var r := Tick(x.engine, ticks);
            && (r.error.Some? ==> Tolerable(r.error.value))
            && Half(x.(engine := r.engine), y) && Half(y, x.(engine := r.engine))
  {
    hide Half, Emission, Ready, RetransmitAll;
    Facts(x, y);
    var later := x.engine.(now := SaturatingAdd64(x.engine.now, ticks));
    LaterEmits(x.engine, later.now, StreamOf(x));
    EmissionKeeps(x, y, later);
    Facts(x.(engine := later), y);
    RetransmitAllEmits(later, StreamOf(x));
    EmissionKeeps(x.(engine := later), y, RetransmitAll(later).engine);
  }

  lemma BusyEmits(e: Engine, busy: bool, stream: seq<Segment>)
    requires Ready(e, stream)
    ensures Emission(e,
                     SendSupervisory(e.(localBusy := busy), if busy then ReceiverNotReady else ReceiverReady, false,
                                     false), stream)
  {
    var noted, f := e.(localBusy := busy), if busy then ReceiverNotReady else ReceiverReady;
    assert Emission(e, noted, stream);
    SupervisoryEmits(noted, f, stream);
    EmissionTransitive(e, noted, SendSupervisory(noted, f, false, false), stream);
  }

  lemma BusyKeeps(x: Side, y: Side, busy: bool)
    requires Half(x, y) && Half(y, x)
    ensures var x' := x.(engine := SetReceiverBusy(x.engine, busy).engine); Half(x', y) && Half(y, x')
  {
    hide Half, Emission, Ready, SendSupervisory;
    Facts(x, y);
    BusyEmits(x.engine, busy, StreamOf(x));
    EmissionKeeps(x, y,
                  SendSupervisory(x.engine.(localBusy := busy), if busy then ReceiverNotReady else ReceiverReady, false,
                                  false));
  }

  lemma PopKeeps(x: Side, y: Side)
    requires Half(x, y) && Half(y, x) && x.engine.received != []
    ensures var x' := x.(engine := PopReceived(x.engine), popped := x.popped + [x.engine.received[0]]);
            Half(x', y) && Half(y, x')
  {
    var r := x.engine.received;
    assert x.popped + [r[0]] + r[1..] == x.popped + r;
  }

  lemma RaiseKeeps(x: Side, y: Side, error: Option<Error>)
    requires Half(x, y) && Half(y, x) && (error.Some? ==> Tolerable(error.value))
    ensures var x' := x.(raised := Raised(x.raised, error)); Half(x', y) && Half(y, x')
  {
  }

  // ---------------------------------------------------------------------------
  // Whole runs
  // ---------------------------------------------------------------------------

  lemma RefusalsChangeNothing(e: Engine, sdu: seq<byte>, frame: seq<byte>, ticks: u32)
    requires ValidConfig(e.config)
    ensures SendSdu(e, sdu).error.Some? ==> SendSdu(e, sdu).engine == e
    ensures e.failed ==>
            ReceiveFrame(e, frame) == Step(e, Some(EngineFailed)) && Tick(e, ticks) == Step(e, Some(EngineFailed))
  {
  }

  /** Every action of an endpoint keeps the invariant. */
  lemma ActKeeps(s: System, action: Action)
    requires Inv(s)
    ensures Inv(Act(s, action))
  {
    hide Half, SendSdu, ReceiveFrame, Tick, SetReceiverBusy, Lose, PollOutbound;
    var l, r := s.left, s.right;
    Facts(l, r);
    match action
    case Send(sdu) =>
      if SendSdu(l.engine, sdu).error.None? {
        SendKeeps(l, r, sdu);
      } else {
        RefusalsChangeNothing(l.engine, sdu, [], 0);
        assert l.submitted + [] == l.submitted;
      }
    case Deliver =>
      if r.engine.outbound != [] {
        if l.engine.failed {
          RefusalsChangeNothing(l.engine, [], r.engine.outbound[0], 0);
          PoppedKeeps(l, r);
          RaiseKeeps(l, Popped(r), Some(EngineFailed));
        } else {
          ReceiveKeeps(l, r);
          var step := ReceiveFrame(l.engine, r.engine.outbound[0]);
          RaiseKeeps(l.(engine := step.engine), Popped(r), step.error);
        }
      }
    case Drop(i) => DropKeeps(l, r, i);
    case Elapse(ticks) =>
      var step := Tick(l.engine, ticks);
      if l.engine.failed { RefusalsChangeNothing(l.engine, [], [], ticks); } else { ElapseKeeps(l, r, ticks); }
      RaiseKeeps(l.(engine := step.engine), r, step.error);
    case SetBusy(busy) => BusyKeeps(l, r, busy);
    case Pop => if l.engine.received != [] { PopKeeps(l, r); }
  }

  lemma ApplyKeeps(s: System, move: Move)
    requires Inv(s)
    ensures Inv(Apply(s, move))
  {
    hide Act, Half;
    if move.byLeft { ActKeeps(s, move.action); } else { ActKeeps(Swap(s), move.action); }
  }

  predicate Compatible(a: Config, b: Config) {
    ValidConfig(a) && ValidConfig(b) && a.peerMtu <= b.localMtu && b.peerMtu <= a.localMtu
  }

  // The states a run of moves passes through, from fresh engines.
  ghost predicate Run(states: seq<System>, moves: seq<Move>, left: Config, right: Config) {
    && |states| == |moves| + 1
    && states[0] == Begin(left, right)
    && forall i :: 0 <= i < |moves| ==> ValidConfigs(states[i]) && states[i + 1] == Apply(states[i], moves[i])
  }

  lemma FreshHolds(left: Config, right: Config)
    requires Compatible(left, right)
    ensures Half(Side(Fresh(left), [], [], []), Side(Fresh(right), [], [], []))
  {
    var x := Side(Fresh(left), [], [], []);
    assert StreamOf(x) == [] && StreamOf(x)[..0] == [];
  }

  lemma BeginHolds(left: Config, right: Config)
    requires Compatible(left, right)
    ensures Inv(Begin(left, right))
  {
    hide Half;
    FreshHolds(left, right);
    FreshHolds(right, left);
  }

  lemma {:induction false} RunKeeps(states: seq<System>, moves: seq<Move>, left: Config, right: Config, n: nat)
    requires Compatible(left, right) && Run(states, moves, left, right) && n < |states|
    ensures Inv(states[n])
  {
    hide Apply, Half;
    if n == 0 {
      BeginHolds(left, right);
    } else {
      RunKeeps(states, moves, left, right, n - 1);
      ApplyKeeps(states[n - 1], moves[n - 1]);
      assert states[n - 1 + 1] == Apply(states[n - 1], moves[n - 1]);
    }
  }

  /** What has been delivered at `y` is the reassembly of a prefix of what `x` submitted. */
  lemma DeliveredIsPrefix(x: Side, y: Side)
    requires Half(x, y)
    ensures y.popped + y.engine.received <= x.submitted
    ensures y.engine.history.accepted == |StreamOf(x)| ==> y.popped + y.engine.received == x.submitted
  {
    PrefixReassembles(x.submitted, x.engine.config.peerMps, y.engine.history.accepted);
  }

  /** Safety over whole runs, for every pair of compatible configurations. */
  lemma Safety(states: seq<System>, moves: seq<Move>, left: Config, right: Config, n: nat)
    requires Compatible(left, right) && Run(states, moves, left, right) && n < |states|
    ensures states[n].right.popped + states[n].right.engine.received <= states[n].left.submitted
    ensures states[n].left.popped + states[n].left.engine.received <= states[n].right.submitted
    ensures forall error <- states[n].left.raised + states[n].right.raised :: Tolerable(error)
  {
    RunKeeps(states, moves, left, right, n);
    DeliveredIsPrefix(states[n].left, states[n].right);
    DeliveredIsPrefix(states[n].right, states[n].left);
  }
}
