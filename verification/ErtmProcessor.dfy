/**
  * The engine as the mutable object it is: its methods update the queues, window,
  * counters and deadline in place, and each is proved to take the state to what
  * the corresponding function of module Ertm says.
  */
module ErtmProcessor {
  import opened Bytes
  import Spec = Ertm
  import opened Ertm

  /** One iteration of the output loop. */
  lemma AdvanceOne(e: Engine, n: nat)
    requires n < |e.pending|
    ensures var d, frame := Advance(e, n), e.pending[n];
            && d.pending != [] && d.pending[0] == frame
            && Advance(e, n + 1)
               == Emit(d, [EncodeFrame(frame, d.expectedTxSeq)],
                       [Info(d.history.acked + |d.window|, d.history.accepted)])
                    .(pending := d.pending[1..], window := d.window + [TransmittedFrame(frame, 1)])
  {
    var req, serial := e.expectedTxSeq, e.history.acked + |e.window|;
    assert e.pending[..n + 1] == e.pending[..n] + [e.pending[n]];
    assert e.pending[..0] == [] && e.pending[0..] == e.pending && e.pending[n..][1..] == e.pending[n + 1..];
    assert EncodeAll(e.pending[..n + 1], req) == EncodeAll(e.pending[..n], req) + [EncodeFrame(e.pending[n], req)];
    assert FirstTransmissions(e.pending[..n + 1]) == FirstTransmissions(e.pending[..n])
           + [TransmittedFrame(e.pending[n], 1)];
    assert InfoTags(serial, n + 1, e.history.accepted) == InfoTags(serial, n, e.history.accepted)
           + [Info(serial + n, e.history.accepted)];
    if n == 0 {
      assert EncodeAll(e.pending[..0], req) == [] && FirstTransmissions(e.pending[..0]) == []
          && InfoTags(serial, 0, e.history.accepted) == [];
      assert e.outbound + [] == e.outbound && e.window + [] == e.window;
    } else {
      var d := Advance(e, n);
      assert d.outbound + [EncodeFrame(e.pending[n], req)] == e.outbound + EncodeAll(e.pending[..n + 1], req);
      assert d.window + [TransmittedFrame(e.pending[n], 1)] == e.window + FirstTransmissions(e.pending[..n + 1]);
      assert d.history.queued + [Info(serial + n, e.history.accepted)]
          == e.history.queued + InfoTags(serial, n + 1, e.history.accepted);
      assert d.history.emitted + [Info(serial + n, e.history.accepted)]
          == e.history.emitted + InfoTags(serial, n + 1, e.history.accepted);
    }
  }

  lemma AdvanceFacts(e: Engine, n: nat)
    requires n <= |e.pending|
    ensures Advance(e, 0) == e
    ensures var d := Advance(e, n);
            d.config == e.config && |d.window| == |e.window| + n && d.pending == e.pending[n..]
                && d.remoteBusy == e.remoteBusy
  {
  }

  // The window after its first `n` frames were sent again.
  function ResentPrefix(e: Engine, n: nat): Engine
    requires n <= |e.window|
  {
    if n == 0 then e
    else
      Emit(e, EncodeAll(Frames(e.window[..n]), e.expectedTxSeq), InfoTags(e.history.acked, n, e.history.accepted))
        .(window := AllAgain(e.window[..n]) + e.window[n..])
  }

  /** One iteration of the retransmission loop. */
  lemma ResentOne(e: Engine, n: nat)
    requires n < |e.window|
    ensures var d, frame := ResentPrefix(e, n), e.window[n];
            && |d.window| == |e.window| && d.window[n] == frame
            && ResentPrefix(e, n + 1)
               == Emit(d, [EncodeFrame(frame.frame, d.expectedTxSeq)], [Info(d.history.acked + n, d.history.accepted)])
                    .(window := d.window[n := Again(frame)])
  {
    var req, w := e.expectedTxSeq, e.window;
    assert w[..n + 1] == w[..n] + [w[n]];
    assert EncodeAll(Frames(w[..n + 1]), req) == EncodeAll(Frames(w[..n]), req) + [EncodeFrame(w[n].frame, req)];
    assert InfoTags(e.history.acked, n + 1, e.history.accepted)
        == InfoTags(e.history.acked, n, e.history.accepted) + [Info(e.history.acked + n, e.history.accepted)];
    var d := ResentPrefix(e, n);
    assert AllAgain(w[..n + 1]) + w[n + 1..] == d.window[n := Again(w[n])];
    if n == 0 {
      assert EncodeAll(Frames(w[..0]), req) == [] && InfoTags(e.history.acked, 0, e.history.accepted) == [];
    } else {
      assert d.outbound + [EncodeFrame(w[n].frame, req)] == e.outbound + EncodeAll(Frames(w[..n + 1]), req);
      assert d.history.queued + [Info(e.history.acked + n, e.history.accepted)]
          == e.history.queued + InfoTags(e.history.acked, n + 1, e.history.accepted);
      assert d.history.emitted + [Info(e.history.acked + n, e.history.accepted)]
          == e.history.emitted + InfoTags(e.history.acked, n + 1, e.history.accepted);
    }
  }

  lemma ResentFacts(e: Engine, n: nat)
    requires n <= |e.window|
    ensures ResentPrefix(e, 0) == e
    ensures |ResentPrefix(e, n).window| == |e.window|
  {
  }

  lemma ResentWhole(e: Engine)
    ensures ResentPrefix(e, |e.window|) == Resend(e)
  {
    assert e.window[..|e.window|] == e.window;
    assert AllAgain(e.window) + e.window[|e.window|..] == AllAgain(e.window);
  }

  lemma QueueSegmentsConcat(e: Engine, s: seq<Segment>, t: seq<Segment>)
    ensures QueueSegments(e, s + t) == QueueSegments(QueueSegments(e, s), t)
  {
    hide Number;
    NumberConcat(s, t, e.nextTxSeq);
    var first, second := Number(s, e.nextTxSeq), Number(t, (e.nextTxSeq + |s|) % 64);
    assert e.pending + (first + second) == e.pending + first + second;
    assert (e.nextTxSeq + |s + t|) % 64 == ((e.nextTxSeq + |s|) % 64 + |t|) % 64;
  }

  lemma NumberConcat(s: seq<Segment>, t: seq<Segment>, first: SeqNo)
    ensures Number(s + t, first) == Number(s, first) + Number(t, (first + |s|) % 64)
  {
  }

  lemma QueueNothing(e: Engine)
    ensures QueueSegments(e, []) == e
  {
    assert e.pending + Number([], e.nextTxSeq) == e.pending;
  }

  class ErtmEngine {
    const config: Config
    var pending: seq<PendingFrame>
    var window: seq<TransmittedFrame>
    var outbound: seq<seq<byte>>
    var received: seq<seq<byte>>
    var nextTxSeq: SeqNo
    var lastAckedTxSeq: SeqNo
    var expectedTxSeq: SeqNo
    var lastAckedRxSeq: SeqNo
    var remoteBusy: bool
    var localBusy: bool
    var inputSdu: seq<byte>
    var inputLength: Option<nat>
    var now: u64
    var deadline: Option<u64>
    var failed: bool
    ghost var history: History

    ghost function View(): Engine
      reads this
    {
      Engine(config, pending, window, outbound, received, nextTxSeq, lastAckedTxSeq, expectedTxSeq, lastAckedRxSeq,
             remoteBusy, localBusy, inputSdu, inputLength, now, deadline, failed, history)
    }

    constructor (c: Config)
      requires ValidConfig(c)
      ensures View() == Fresh(c)
    {
      config := c;
      pending, window, outbound, received := [], [], [], [];
      nextTxSeq, lastAckedTxSeq, expectedTxSeq, lastAckedRxSeq := 0, 0, 0, 0;
      remoteBusy, localBusy := false, false;
      inputSdu, inputLength := [], None;
      now, deadline, failed := 0, None, false;
      history := History(0, 0, 0, [], []);
    }

    method SendSdu(sdu: seq<byte>) returns (error: Option<Error>)
      requires ValidConfig(config)
      modifies this
      ensures Step(View(), error) == Spec.SendSdu(old(View()), sdu)
    {
      if failed { return Some(EngineFailed); }
      if |sdu| > config.peerMtu { return Some(SduExceedsPeerMtu); }
      var mps := config.peerMps;
      if |sdu| <= mps {
        QueueSegment(Segment(sdu, Unsegmented, None));
      } else {
        QueueChunks(sdu, mps);
      }
      ProcessOutput();
      return None;
    }

    // `take_tx_seq` and the push that follows it.
    method QueueSegment(segment: Segment)
      modifies this
      ensures View() == QueueSegments(old(View()), [segment])
    {
      pending := pending + [PendingFrame(segment, nextTxSeq)];
      nextTxSeq := SequenceAdd(nextTxSeq, 1);
      history := history.(created := history.created + 1);
      assert Number([segment], old(nextTxSeq)) == [PendingFrame(segment, old(nextTxSeq))];
    }

    method QueueChunks(sdu: seq<byte>, mps: nat)
      requires 0 < mps < |sdu| < 0x1_0000
      modifies this
      ensures View() == QueueSegments(old(View()), SegmentsFrom(sdu, mps, 0))
    {
      hide QueueSegments;
      var offset := 0;
      ghost var done: seq<Segment> := [];
      QueueNothing(View());
      while offset < |sdu|
        invariant done + SegmentsFrom(sdu, mps, offset) == SegmentsFrom(sdu, mps, 0)
        invariant View() == QueueSegments(old(View()), done)
        decreases |sdu| - offset
      {
        var end := if offset + mps <= |sdu| then offset + mps else |sdu|;
        var sar := if offset == 0 then Start else if end == |sdu| then End else Continuation;
        var segment := Segment(sdu[offset..end], sar, if sar == Start then Some(|sdu|) else None);
        QueueSegment(segment);
        QueueSegmentsConcat(old(View()), done, [segment]);
        assert done + [segment] + SegmentsFrom(sdu, mps, offset + mps) == done + SegmentsFrom(sdu, mps, offset);
        done := done + [segment];
        offset := offset + mps;
      }
      assert done + [] == done;
    }

    method ReceiveFrame(frame: seq<byte>) returns (error: Option<Error>)
      modifies this
      ensures Step(View(), error) == Spec.ReceiveFrame(old(View()), frame)
    {
      hide Spec.Acknowledge, Spec.ReceiveInformation, Spec.ReceiveSupervisory;
      if failed { return Some(EngineFailed); }
      var decoded := DecodeControl(frame);
      if decoded.Failure? { return Some(decoded.error); }
      var control := decoded.value;
      var outstanding := |window|;
      error := Acknowledge(control.reqSeq);
      if error.Some? { return; }
      match control {
        case Information(txSeq, finalBit, _, sar) =>
          error := ReceiveInformation(txSeq, finalBit, sar, frame[2..]);
        case Supervisory(f, poll, finalBit, reqSeq) =>
          error := ReceiveSupervisory(|window| != outstanding, f, poll, finalBit, reqSeq);
      }
    }

    method ReceiveInformation(txSeq: byte, finalBit: bool, sar: Sar, body: seq<byte>) returns (error: Option<Error>)
      modifies this
      ensures Step(View(), error) == Spec.ReceiveInformation(old(View()), txSeq, finalBit, sar, body)
    {
      hide Spec.SendSupervisory, Spec.AcceptInformation, Spec.ProcessOutput;
      error := None;
      if localBusy {
        SendSupervisory(ReceiverNotReady, false, finalBit);
        return;
      }
      if txSeq != expectedTxSeq {
        SendSupervisory(Reject, false, finalBit);
        return;
      }
      expectedTxSeq := SequenceAdd(expectedTxSeq, 1);
      history := history.(accepted := history.accepted + 1);
      error := AcceptInformation(sar, body);
      if error.Some? { return; }
      ProcessOutput();
      if lastAckedRxSeq != expectedTxSeq {
        SendSupervisory(ReceiverReady, false, finalBit);
      }
    }

    method ReceiveSupervisory(acked: bool, f: SupervisoryFunction, poll: bool, finalBit: bool, reqSeq: byte)
      returns (error: Option<Error>)
      modifies this
      ensures Step(View(), error) == Spec.ReceiveSupervisory(old(View()), acked, f, poll, finalBit, reqSeq)
    {
      hide Spec.SendSupervisory, Spec.RetransmitAll, Spec.RetransmitOne, Spec.ProcessOutput;
      remoteBusy := f == ReceiverNotReady;
      error := None;
      if f == Reject {
        error := RetransmitAll();
      } else if f == SelectiveReject {
        error := RetransmitOne(reqSeq);
      } else if finalBit && !acked && window != [] {
        error := RetransmitAll();
      }
      if error.Some? { return; }
      if poll {
        SendSupervisory(if localBusy then ReceiverNotReady else ReceiverReady, false, true);
      }
      ProcessOutput();
    }

    method SetReceiverBusy(busy: bool) returns (error: Option<Error>)
      modifies this
      ensures Step(View(), error) == Spec.SetReceiverBusy(old(View()), busy)
    {
      hide Spec.SendSupervisory;
      if failed { return Some(EngineFailed); }
      if localBusy != busy {
        localBusy := busy;
        SendSupervisory(if busy then ReceiverNotReady else ReceiverReady, false, false);
      }
      return None;
    }

    method Tick(ticks: u32) returns (error: Option<Error>)
      modifies this
      ensures Step(View(), error) == Spec.Tick(old(View()), ticks)
    {
      hide Spec.RetransmitAll;
      if failed { return Some(EngineFailed); }
      now := SaturatingAdd64(now, ticks);
      error := None;
      if deadline.Some? && now >= deadline.value && window != [] {
        error := RetransmitAll();
      }
    }

    method PollOutbound() returns (frame: Option<seq<byte>>)
      modifies this
      ensures frame == if old(outbound) == [] then None else Some(old(outbound)[0])
      ensures View() == Spec.PollOutbound(old(View()))
    {
      if outbound == [] { return None; }
      frame := Some(outbound[0]);
      outbound := outbound[1..];
      history := history.(queued := if history.queued == [] then [] else history.queued[1..]);
    }

    method PopReceived() returns (sdu: Option<seq<byte>>)
      modifies this
      ensures sdu == if old(received) == [] then None else Some(old(received)[0])
      ensures View() == Spec.PopReceived(old(View()))
    {
      if received == [] { return None; }
      sdu := Some(received[0]);
      received := received[1..];
    }

    method AcceptInformation(sar: Sar, payload: seq<byte>) returns (error: Option<Error>)
      modifies this
      ensures Step(View(), error) == Spec.AcceptInformation(old(View()), sar, payload)
    {
      error := None;
      match sar {
        case Unsegmented =>
          if inputSdu != [] || inputLength.Some? {
            ResetInput();
            return Some(InterruptedSdu);
          }
          if |payload| > config.localMtu { return Some(SduExceedsLocalMtu); }
          received := received + [payload];
        case Start =>
          if |payload| < 2 { return Some(MissingSduLength); }
          if inputSdu != [] || inputLength.Some? {
            ResetInput();
            return Some(InterruptedSdu);
          }
          var length := FromLe16(payload[0], payload[1]);
          if length > config.localMtu { return Some(SduExceedsLocalMtu); }
          inputLength := Some(length);
          inputSdu := inputSdu + payload[2..];
          error := CheckPartialLength();
        case Continuation =>
          if inputLength.None? { return Some(ContinuationWithoutStart); }
          inputSdu := inputSdu + payload;
          error := CheckPartialLength();
        case End =>
          if inputLength.None? { return Some(EndWithoutStart); }
          inputSdu := inputSdu + payload;
          if |inputSdu| != inputLength.value {
            ResetInput();
            return Some(LengthMismatch);
          }
          received := received + [inputSdu];
          ResetInput();
      }
    }

    method ResetInput()
      modifies this
      ensures View() == old(View()).(inputSdu := [], inputLength := None)
    {
      inputSdu, inputLength := [], None;
    }

    method CheckPartialLength() returns (error: Option<Error>)
      modifies this
      ensures var i := CheckPartial(Intake(old(received), old(inputSdu), old(inputLength), None));
              && View() == old(View()).(inputSdu := i.sdu, inputLength := i.length)
              && error == i.error
    {
      if inputLength.Some? && |inputSdu| >= inputLength.value {
        ResetInput();
        return Some(LengthReachedEarly);
      }
      return None;
    }

    method Acknowledge(newSeq: byte) returns (error: Option<Error>)
      modifies this
      ensures Step(View(), error) == Spec.Acknowledge(old(View()), newSeq)
    {
      if newSeq >= 64 { return Some(SequenceOutOfRange); }
      var count := SequenceDistance(lastAckedTxSeq, newSeq);
      if count > |window| { return Some(AcknowledgedTooMany); }
      for i := 0 to count
        invariant View() == old(View()).(window := old(window)[i..])
      {
        window := window[1..];
      }
      if count != 0 {
        lastAckedTxSeq := newSeq;
        history := history.(acked := history.acked + count);
        RefreshDeadline();
      }
      return None;
    }

    method ProcessOutput()
      modifies this
      ensures View() == Spec.ProcessOutput(old(View()))
    {
      hide Advance, Emit;
      if remoteBusy { return; }
      ghost var start, n := View(), 0;
      AdvanceFacts(start, 0);
      while |window| < config.txWindowSize
        invariant n <= Room(start) && View() == Advance(start, n)
        decreases config.txWindowSize - |window|
      {
        AdvanceFacts(start, n);
        if pending == [] { break; }
        AdvanceOne(start, n);
        TransmitNext();
        n := n + 1;
        AdvanceFacts(start, n);
      }
      AdvanceFacts(start, n);
      RefreshDeadline();
    }

    // The body of the output loop: the oldest pending frame enters the window and is queued.
    method TransmitNext()
      requires pending != []
      modifies this
      ensures var e := old(View());
              View() == Emit(e, [EncodeFrame(e.pending[0], e.expectedTxSeq)],
                             [Info(e.history.acked + |e.window|, e.history.accepted)])
                          .(pending := e.pending[1..], window := e.window + [TransmittedFrame(e.pending[0], 1)])
    {
      hide EncodeFrame;
      var frame := pending[0];
      pending := pending[1..];
      var encoded := EncodeFrame(frame, expectedTxSeq);
      lastAckedRxSeq := expectedTxSeq;
      Record([Info(history.acked + |window|, history.accepted)]);
      window := window + [TransmittedFrame(frame, 1)];
      outbound := outbound + [encoded];
    }

    // Queue the window frame at `i` once more and count the transmission.
    method TransmitAgain(i: nat)
      requires i < |window|
      modifies this
      ensures var e := old(View());
              View() == Emit(e, [EncodeFrame(e.window[i].frame, e.expectedTxSeq)],
                             [Info(e.history.acked + i, e.history.accepted)])
                          .(window := e.window[i := Again(e.window[i])])
    {
      hide EncodeFrame, Again;
      outbound := outbound + [EncodeFrame(window[i].frame, expectedTxSeq)];
      Record([Info(history.acked + i, history.accepted)]);
      window := window[i := Again(window[i])];
      lastAckedRxSeq := expectedTxSeq;
    }

    ghost method Record(tags: seq<Tag>)
      modifies this`history
      ensures history == old(history).(queued := old(history).queued + tags, emitted := old(history).emitted + tags)
    {
      history := history.(queued := history.queued + tags, emitted := history.emitted + tags);
    }

    method RetransmitAll() returns (error: Option<Error>)
      modifies this
      ensures Step(View(), error) == Spec.RetransmitAll(old(View()))
    {
      if remoteBusy { return None; }
      var spent := FirstExhausted(window, config.maxRetransmissions);
      if spent < |window| {
        failed := true;
        return Some(RetransmissionLimit(window[spent].frame.txSeq));
      }
      ghost var start := View();
      hide Emit, ResentPrefix, Resend, FirstExhausted;
      ResentFacts(start, 0);
      var i := 0;
      while i < |window|
        invariant i <= |window| == |start.window|
        invariant View() == ResentPrefix(start, i)
      {
        ResentOne(start, i);
        TransmitAgain(i);
        i := i + 1;
        ResentFacts(start, i);
      }
      ResentWhole(start);
      RefreshDeadline();
      return None;
    }

    method RetransmitOne(txSeq: byte) returns (error: Option<Error>)
      modifies this
      ensures Step(View(), error) == Spec.RetransmitOne(old(View()), txSeq)
    {
      hide Emit, FindFrame;
      if remoteBusy { return None; }
      var i := FindFrame(window, txSeq);
      if i == |window| { return Some(UnknownSelectiveReject); }
      if LimitReached(config.maxRetransmissions, window[i]) {
        failed := true;
        return Some(RetransmissionLimit(window[i].frame.txSeq));
      }
      TransmitAgain(i);
      RefreshDeadline();
      return None;
    }

    method SendSupervisory(f: SupervisoryFunction, poll: bool, finalBit: bool)
      modifies this
      ensures View() == Spec.SendSupervisory(old(View()), f, poll, finalBit)
    {
      outbound := outbound + [EncodeSupervisory(f, poll, finalBit, expectedTxSeq)];
      Record([Super(f, poll, finalBit, history.accepted)]);
      lastAckedRxSeq := expectedTxSeq;
    }

    method RefreshDeadline()
      modifies this
      ensures View() == Spec.RefreshDeadline(old(View()))
    {
      deadline := if window == [] then None else Some(SaturatingAdd64(now, config.timeoutTicks));
    }
  }
}
