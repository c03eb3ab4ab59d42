/**
  * An engine never looks at what it has queued or handed over: putting frames and
  * SDUs in front of its queues commutes with every operation. A channel that keeps
  * its engine's frames and SDUs elsewhere thus behaves as the engine that kept them.
  */
module ErtmLift {
  import opened Bytes
  import opened Ertm

  // Frames, with their tags, and SDUs that left the engine earlier.
  datatype Front = Front(outbound: seq<seq<byte>>, tags: seq<Tag>, received: seq<seq<byte>>)

  function Lift(e: Engine, f: Front): Engine {
    e.(outbound := f.outbound + e.outbound, received := f.received + e.received,
       history := e.history.(queued := f.tags + e.history.queued))
  }

  function LiftStep(s: Step, f: Front): Step { Step(Lift(s.engine, f), s.error) }

  lemma EmitLifts(e: Engine, f: Front, frames: seq<seq<byte>>, tags: seq<Tag>)
    ensures Emit(Lift(e, f), frames, tags) == Lift(Emit(e, frames, tags), f)
  {
    assert f.outbound + e.outbound + frames == f.outbound + (e.outbound + frames);
    assert f.tags + e.history.queued + tags == f.tags + (e.history.queued + tags);
  }

  lemma SupervisoryLifts(e: Engine, f: Front, g: SupervisoryFunction, poll: bool, finalBit: bool)
    ensures SendSupervisory(Lift(e, f), g, poll, finalBit) == Lift(SendSupervisory(e, g, poll, finalBit), f)
  {
    hide Emit, EncodeSupervisory;
    EmitLifts(e, f, [EncodeSupervisory(g, poll, finalBit, e.expectedTxSeq)],
              [Super(g, poll, finalBit, e.history.accepted)]);
  }

  lemma AdvanceLifts(e: Engine, f: Front, n: nat)
    requires n <= |e.pending|
    ensures Advance(Lift(e, f), n) == Lift(Advance(e, n), f)
  {
    hide EncodeAll, InfoTags, FirstTransmissions;
    EmitLifts(e, f, EncodeAll(e.pending[..n], e.expectedTxSeq),
              InfoTags(e.history.acked + |e.window|, n, e.history.accepted));
  }

  lemma OutputLifts(e: Engine, f: Front)
    ensures ProcessOutput(Lift(e, f)) == Lift(ProcessOutput(e), f)
  {
    hide Advance;
    AdvanceLifts(e, f, Room(e));
  }

  lemma RetransmitAllLifts(e: Engine, f: Front)
    ensures RetransmitAll(Lift(e, f)) == LiftStep(RetransmitAll(e), f)
  {
    hide Resend, FirstExhausted;
    ResendLifts(e, f);
  }

  lemma ResendLifts(e: Engine, f: Front)
    ensures Resend(Lift(e, f)) == Lift(Resend(e), f)
  {
    hide EncodeAll, InfoTags, AllAgain, Frames;
    EmitLifts(e, f, EncodeAll(Frames(e.window), e.expectedTxSeq),
              InfoTags(e.history.acked, |e.window|, e.history.accepted));
  }

  lemma RetransmitOneLifts(e: Engine, f: Front, txSeq: byte)
    ensures RetransmitOne(Lift(e, f), txSeq) == LiftStep(RetransmitOne(e, txSeq), f)
  {
    hide FindFrame, EncodeFrame, LimitReached, Again;
    var i := FindFrame(e.window, txSeq);
    if i < |e.window| {
      EmitLifts(e, f, [EncodeFrame(e.window[i].frame, e.expectedTxSeq)],
                [Info(e.history.acked + i, e.history.accepted)]);
    }
  }

  lemma AcknowledgeLifts(e: Engine, f: Front, req: byte)
    ensures Acknowledge(Lift(e, f), req) == LiftStep(Acknowledge(e, req), f)
  {
    hide SequenceDistance;
  }

  lemma AcceptLifts(e: Engine, f: Front, sar: Sar, payload: seq<byte>)
    ensures AcceptInformation(Lift(e, f), sar, payload) == LiftStep(AcceptInformation(e, sar, payload), f)
  {
    var i := Accept(Intake(e.received, e.inputSdu, e.inputLength, None), e.config.localMtu, sar, payload);
    assert f.received + e.received + [payload] == f.received + (e.received + [payload]);
    assert f.received + e.received + [e.inputSdu + payload] == f.received + (e.received + [e.inputSdu + payload]);
  }

  lemma OutputThenAcknowledgeLifts(e: Engine, f: Front, finalBit: bool)
    ensures OutputThenAcknowledge(Lift(e, f), finalBit) == Lift(OutputThenAcknowledge(e, finalBit), f)
  {
    hide ProcessOutput, SendSupervisory;
    OutputLifts(e, f);
    SupervisoryLifts(ProcessOutput(e), f, ReceiverReady, false, finalBit);
  }

  lemma ReceiveInformationLifts(e: Engine, f: Front, txSeq: byte, finalBit: bool, sar: Sar, body: seq<byte>)
    ensures ReceiveInformation(Lift(e, f), txSeq, finalBit, sar, body)
            == LiftStep(ReceiveInformation(e, txSeq, finalBit, sar, body), f)
  {
    hide SendSupervisory, AcceptInformation, OutputThenAcknowledge;
    SupervisoryLifts(e, f, ReceiverNotReady, false, finalBit);
    SupervisoryLifts(e, f, Reject, false, finalBit);
    var counted := e.(expectedTxSeq := SequenceAdd(e.expectedTxSeq, 1),
                      history := e.history.(accepted := e.history.accepted + 1));
    AcceptLifts(counted, f, sar, body);
    OutputThenAcknowledgeLifts(AcceptInformation(counted, sar, body).engine, f, finalBit);
  }

  lemma ResentLifts(e: Engine, f: Front, acked: bool, g: SupervisoryFunction, finalBit: bool, req: byte)
    ensures Resent(Lift(e, f), acked, g, finalBit, req) == LiftStep(Resent(e, acked, g, finalBit, req), f)
  {
    hide RetransmitAll, RetransmitOne;
    RetransmitAllLifts(e, f);
    RetransmitOneLifts(e, f, req);
  }

  lemma ReceiveSupervisoryLifts(e: Engine, f: Front, acked: bool, g: SupervisoryFunction, poll: bool, finalBit: bool,
                                req: byte)
    ensures ReceiveSupervisory(Lift(e, f), acked, g, poll, finalBit, req)
            == LiftStep(ReceiveSupervisory(e, acked, g, poll, finalBit, req), f)
  {
    hide Resent, ProcessOutput, SendSupervisory;
    var noted := e.(remoteBusy := g == ReceiverNotReady);
    ResentLifts(noted, f, acked, g, finalBit, req);
    var resent := Resent(noted, acked, g, finalBit, req).engine;
    var answer := if resent.localBusy then ReceiverNotReady else ReceiverReady;
    SupervisoryLifts(resent, f, answer, false, true);
    OutputLifts(resent, f);
    OutputLifts(SendSupervisory(resent, answer, false, true), f);
  }

  /** Receiving a frame, sending an SDU, the clock and the busy state: none depends on what left the engine. */
  lemma ReceiveLifts(e: Engine, f: Front, frame: seq<byte>)
    ensures ReceiveFrame(Lift(e, f), frame) == LiftStep(ReceiveFrame(e, frame), f)
  {
    hide Acknowledge, ReceiveInformation, ReceiveSupervisory;
    if !e.failed && DecodeControl(frame).Success? {
      var control := DecodeControl(frame).value;
      AcknowledgeLifts(e, f, control.reqSeq);
      var a := Acknowledge(e, control.reqSeq);
      if a.error.None? {
        match control
        case Information(txSeq, finalBit, _, sar) =>
          ReceiveInformationLifts(a.engine, f, txSeq, finalBit, sar, frame[2..]);
        case Supervisory(g, poll, finalBit, req) =>
          ReceiveSupervisoryLifts(a.engine, f, |a.engine.window| != |e.window|, g, poll, finalBit, req);
      }
    }
  }

  lemma SendLifts(e: Engine, f: Front, sdu: seq<byte>)
    requires ValidConfig(e.config)
    ensures SendSdu(Lift(e, f), sdu) == LiftStep(SendSdu(e, sdu), f)
  {
    hide ProcessOutput, Segments;
    if |sdu| <= e.config.peerMtu { OutputLifts(QueueSegments(e, Segments(sdu, e.config.peerMps)), f); }
  }

  lemma BusyLifts(e: Engine, f: Front, busy: bool)
    ensures SetReceiverBusy(Lift(e, f), busy) == LiftStep(SetReceiverBusy(e, busy), f)
  {
    hide SendSupervisory;
    SupervisoryLifts(e.(localBusy := busy), f, if busy then ReceiverNotReady else ReceiverReady, false, false);
  }

  lemma TickLifts(e: Engine, f: Front, ticks: u32)
    ensures Tick(Lift(e, f), ticks) == LiftStep(Tick(e, ticks), f)
  {
    hide RetransmitAll;
    RetransmitAllLifts(e.(now := SaturatingAdd64(e.now, ticks)), f);
  }
}
