/**
  * One engine under any operations and any received bytes: with a retransmission
  * limit m no information frame is ever emitted more than m + 1 times, the limit
  * trips exactly when an outstanding frame has been, and a tripped engine emits
  * nothing further.
  */
module ErtmBound {
  import opened Bytes
  import opened Ertm

  datatype Operation =
    | Send(sdu: seq<byte>)
    | Receive(frame: seq<byte>)
    | Elapse(ticks: u32)
    | SetBusy(busy: bool)
    | Poll
    | Pop

  function Perform(e: Engine, op: Operation): Engine
    requires ValidConfig(e.config)
  {
    match op
    case Send(sdu) => SendSdu(e, sdu).engine
    case Receive(frame) => ReceiveFrame(e, frame).engine
    case Elapse(ticks) => Tick(e, ticks).engine
    case SetBusy(busy) => SetReceiverBusy(e, busy).engine
    case Poll => PollOutbound(e)
    case Pop => PopReceived(e)
  }

  // How often the information frame created as number `serial` occurs.
  function Times(tags: seq<Tag>, serial: nat): nat {
    if tags == [] then 0
    else
      Times(tags[..|tags| - 1], serial)
      + (if tags[|tags| - 1].Info? && tags[|tags| - 1].serial == serial then 1 else 0)
  }

  lemma {:induction false} TimesConcat(s: seq<Tag>, t: seq<Tag>, serial: nat)
    ensures Times(s + t, serial) == Times(s, serial) + Times(t, serial)
  {
    if t == [] {
      assert s + t == s;
    } else {
      assert (s + t)[..|s + t| - 1] == s + t[..|t| - 1];
      TimesConcat(s, t[..|t| - 1], serial);
    }
  }

  lemma {:induction false} TimesInRange(first: nat, count: nat, req: nat, serial: nat)
    ensures Times(InfoTags(first, count, req), serial) == (if first <= serial < first + count then 1 else 0)
  {
    if count > 0 {
      assert InfoTags(first, count, req)[..count - 1] == InfoTags(first, count - 1, req);
      TimesInRange(first, count - 1, req, serial);
    }
  }

  // Each outstanding frame's counter is the number of times it was emitted.
  ghost predicate Counted(window: seq<TransmittedFrame>, acked: nat, emitted: seq<Tag>, max: nat) {
    && (forall i :: 0 <= i < |window| ==> Times(emitted, acked + i) == window[i].transmissions <= max + 1)
    && (forall serial: nat :: serial >= acked + |window| ==> Times(emitted, serial) == 0)
    && (forall serial: nat :: Times(emitted, serial) <= max + 1)
  }

  // An information tag stands for an information frame with its sequence number, any other for a supervisory frame.
  predicate Describes(tag: Tag, frame: seq<byte>) {
    frame != [] && if tag.Info? then frame[0] == 2 * (tag.serial % 64) else frame[0] % 2 == 1
  }

  // Sequence numbers are the unwrapped ones modulo 64.
  predicate Numbered(e: Engine) {
    var h := e.history;
    && e.lastAckedTxSeq == h.acked % 64 && e.nextTxSeq == (h.acked + |e.window| + |e.pending|) % 64
    && (forall i :: 0 <= i < |e.window| ==> e.window[i].frame.txSeq == (h.acked + i) % 64)
    && (forall i :: 0 <= i < |e.pending| ==> e.pending[i].txSeq == (h.acked + |e.window| + i) % 64)
  }

  // The queued tags describe the queued frames and are the latest emissions.
  predicate Logged(outbound: seq<seq<byte>>, queued: seq<Tag>, emitted: seq<Tag>) {
    && |outbound| == |queued| <= |emitted|
    && queued == emitted[|emitted| - |queued|..]
    && forall i :: 0 <= i < |queued| ==> Describes(queued[i], outbound[i])
  }

  ghost predicate Inv(e: Engine) {
    && ValidConfig(e.config)
    && Counted(e.window, e.history.acked, e.history.emitted, e.config.maxRetransmissions)
    && Logged(e.outbound, e.history.queued, e.history.emitted) && Numbered(e)
  }

  // The invariant of an engine whose configuration sets a limit.
  ghost predicate Limited(e: Engine, config: Config) { Inv(e) && e.config == config && config.maxRetransmissions != 0 }

  lemma LoggedGrows(e: Engine, frames: seq<seq<byte>>, tags: seq<Tag>)
    requires Logged(e.outbound, e.history.queued, e.history.emitted) && |frames| == |tags|
    requires forall i :: 0 <= i < |tags| ==> Describes(tags[i], frames[i])
    ensures Logged(e.outbound + frames, e.history.queued + tags, e.history.emitted + tags)
  {
  }

  lemma SupervisoryKeeps(e: Engine, f: SupervisoryFunction, poll: bool, finalBit: bool)
    requires Limited(e, e.config)
    ensures Limited(SendSupervisory(e, f, poll, finalBit), e.config)
  {
    var tags := [Super(f, poll, finalBit, e.history.accepted)];
    LoggedGrows(e, [EncodeSupervisory(f, poll, finalBit, e.expectedTxSeq)], tags);
    forall serial: nat ensures Times(e.history.emitted + tags, serial) == Times(e.history.emitted, serial) {
      TimesConcat(e.history.emitted, tags, serial);
      assert tags[..0] == [];
    }
  }

  lemma CountedFirst(
      window: seq<TransmittedFrame>, acked: nat, emitted: seq<Tag>, max: nat, frames: seq<PendingFrame>, req: nat)
    requires Counted(window, acked, emitted, max)
    ensures Counted(window + FirstTransmissions(frames), acked,
                    emitted + InfoTags(acked + |window|, |frames|, req), max)
  {
    var all, after := emitted + InfoTags(acked + |window|, |frames|, req), window + FirstTransmissions(frames);
    forall serial: nat
      ensures Times(all, serial)
              == Times(emitted, serial) + (if acked + |window| <= serial < acked + |after| then 1 else 0)
    {
      TimesConcat(emitted, InfoTags(acked + |window|, |frames|, req), serial);
      TimesInRange(acked + |window|, |frames|, req, serial);
    }
    forall j | 0 <= j < |after| ensures Times(all, acked + j) == after[j].transmissions <= max + 1 {
      if j < |window| { assert Times(emitted, acked + j) == window[j].transmissions; }
    }
  }

  lemma CountedAll(window: seq<TransmittedFrame>, acked: nat, emitted: seq<Tag>, max: byte, req: nat)
    requires max != 0 && Counted(window, acked, emitted, max)
    requires forall i :: 0 <= i < |window| ==> !LimitReached(max, window[i])
    ensures Counted(AllAgain(window), acked, emitted + InfoTags(acked, |window|, req), max)
  {
    var all := emitted + InfoTags(acked, |window|, req);
    forall serial: nat
      ensures Times(all, serial)
              == Times(emitted, serial) + (if acked <= serial < acked + |window| then 1 else 0) <= max + 1
    {
      TimesConcat(emitted, InfoTags(acked, |window|, req), serial);
      TimesInRange(acked, |window|, req, serial);
      if acked <= serial < acked + |window| {
        assert !LimitReached(max, window[serial - acked]) && Times(emitted, acked + (serial - acked)) <= max;
      }
    }
  }

  lemma CountedOne(window: seq<TransmittedFrame>, acked: nat, emitted: seq<Tag>, max: byte, i: nat, req: nat)
    requires max != 0 && Counted(window, acked, emitted, max) && i < |window| && !LimitReached(max, window[i])
    ensures Counted(window[i := Again(window[i])], acked, emitted + [Info(acked + i, req)], max)
  {
    var all, after := emitted + [Info(acked + i, req)], window[i := Again(window[i])];
    assert Times(emitted, acked + i) <= max;
    forall serial: nat
      ensures Times(all, serial) == Times(emitted, serial) + (if serial == acked + i then 1 else 0) <= max + 1
    {
      assert all[..|all| - 1] == emitted;
    }
    forall j | 0 <= j < |after| ensures Times(all, acked + j) == after[j].transmissions <= max + 1 {
      assert Times(emitted, acked + j) == window[j].transmissions;
    }
  }

  lemma AdvanceKeeps(e: Engine, n: nat)
    requires Limited(e, e.config) && n <= |e.pending|
    ensures Limited(Advance(e, n), e.config)
  {
    hide Counted;
    if n > 0 {
      var frames, tags := e.pending[..n], InfoTags(e.history.acked + |e.window|, n, e.history.accepted);
      LoggedGrows(e, EncodeAll(frames, e.expectedTxSeq), tags);
      CountedFirst(e.window, e.history.acked, e.history.emitted, e.config.maxRetransmissions, frames,
                   e.history.accepted);
    }
  }

  lemma ProcessOutputKeeps(e: Engine)
    requires Limited(e, e.config)
    ensures Limited(ProcessOutput(e), e.config)
  {
    hide Inv, Advance;
    AdvanceKeeps(e, Room(e));
    DeadlineKeeps(Advance(e, Room(e)));
  }

  lemma DeadlineKeeps(e: Engine)
    requires Limited(e, e.config)
    ensures Limited(RefreshDeadline(e), e.config)
  {
    hide Counted, Logged;
  }

  lemma RetransmitAllKeeps(e: Engine)
    requires Limited(e, e.config)
    ensures Limited(RetransmitAll(e).engine, e.config)
  {
    hide Inv, Resend, FirstExhausted;
    if !e.remoteBusy && FirstExhausted(e.window, e.config.maxRetransmissions) == |e.window| {
      ResendKeeps(e);
      DeadlineKeeps(Resend(e));
    } else {
      FailedKeeps(e);
    }
  }

  lemma FailedKeeps(e: Engine)
    requires Limited(e, e.config)
    ensures Limited(e.(failed := true), e.config)
  {
    hide Counted, Logged;
  }

  lemma WindowDescribed(e: Engine)
    requires Numbered(e)
    ensures var frames, tags := EncodeAll(Frames(e.window), e.expectedTxSeq),
                                InfoTags(e.history.acked, |e.window|, e.history.accepted);
            forall i :: 0 <= i < |tags| ==> Describes(tags[i], frames[i])
    ensures Numbered(Resend(e))
  {
    hide Body;
  }

  lemma ResendKeeps(e: Engine)
    requires Limited(e, e.config) && FirstExhausted(e.window, e.config.maxRetransmissions) == |e.window|
    ensures Limited(Resend(e), e.config)
  {
    WindowDescribed(e);
    hide Counted, Numbered, Describes, Logged, EncodeAll, Frames, InfoTags, AllAgain;
    if e.window != [] {
      var frames, tags := EncodeAll(Frames(e.window), e.expectedTxSeq),
                          InfoTags(e.history.acked, |e.window|, e.history.accepted);
      assert |frames| == |tags| by { WindowLengths(e); }
      LoggedGrows(e, frames, tags);
      CountedAll(e.window, e.history.acked, e.history.emitted, e.config.maxRetransmissions, e.history.accepted);
    }
  }

  lemma WindowLengths(e: Engine)
    ensures |EncodeAll(Frames(e.window), e.expectedTxSeq)|
            == |InfoTags(e.history.acked, |e.window|, e.history.accepted)|
  {
  }

  lemma RetransmitOneKeeps(e: Engine, txSeq: byte)
    requires Limited(e, e.config)
    ensures Limited(RetransmitOne(e, txSeq).engine, e.config)
  {
    hide Counted;
    var i := FindFrame(e.window, txSeq);
    if !e.remoteBusy && i < |e.window| && !LimitReached(e.config.maxRetransmissions, e.window[i]) {
      LoggedGrows(e, [EncodeFrame(e.window[i].frame, e.expectedTxSeq)],
                  [Info(e.history.acked + i, e.history.accepted)]);
      CountedOne(e.window, e.history.acked, e.history.emitted, e.config.maxRetransmissions, i, e.history.accepted);
    }
  }

  lemma CountedTail(window: seq<TransmittedFrame>, acked: nat, emitted: seq<Tag>, max: nat, n: nat)
    requires Counted(window, acked, emitted, max) && n <= |window|
    ensures Counted(window[n..], acked + n, emitted, max)
  {
    forall i | 0 <= i < |window| - n ensures Times(emitted, acked + n + i) == window[n..][i].transmissions {
      assert Times(emitted, acked + (n + i)) == window[n + i].transmissions;
    }
  }

  lemma AcknowledgeKeepsLimit(e: Engine, newSeq: byte)
    requires Limited(e, e.config)
    ensures Limited(Acknowledge(e, newSeq).engine, e.config)
  {
    hide Counted, Numbered, Logged, SequenceDistance;
    if newSeq < 64 {
      var count := SequenceDistance(e.lastAckedTxSeq, newSeq);
      if count <= |e.window| {
        CountedTail(e.window, e.history.acked, e.history.emitted, e.config.maxRetransmissions, count);
        NumberedTail(e, newSeq);
      }
    }
  }

  lemma NumberedTail(e: Engine, newSeq: SeqNo)
    requires Numbered(e) && SequenceDistance(e.lastAckedTxSeq, newSeq) <= |e.window|
    ensures Numbered(Acknowledge(e, newSeq).engine)
  {
    var count := SequenceDistance(e.lastAckedTxSeq, newSeq);
    DistanceReaches(e.history.acked, newSeq);
    hide SequenceDistance;
    assert forall i :: 0 <= i < |e.window| - count ==> e.window[count..][i] == e.window[count + i];
  }

  lemma DistanceReaches(acked: nat, newSeq: SeqNo)
    ensures (acked + SequenceDistance(acked % 64, newSeq)) % 64 == newSeq
  {
  }

  lemma AcceptKeeps(e: Engine, sar: Sar, body: seq<byte>)
    requires Limited(e, e.config)
    ensures Limited(AcceptInformation(e, sar, body).engine, e.config)
  {
  }

  lemma OutputThenAcknowledgeKeeps(e: Engine, finalBit: bool)
    requires Limited(e, e.config)
    ensures Limited(OutputThenAcknowledge(e, finalBit), e.config)
  {
    ProcessOutputKeeps(e);
    SupervisoryKeeps(ProcessOutput(e), ReceiverReady, false, finalBit);
  }

  lemma ReceiveInformationKeeps(e: Engine, txSeq: byte, finalBit: bool, sar: Sar, body: seq<byte>)
    requires Limited(e, e.config)
    ensures Limited(ReceiveInformation(e, txSeq, finalBit, sar, body).engine, e.config)
  {
    hide AcceptInformation, OutputThenAcknowledge, SendSupervisory;
    if e.localBusy {
      SupervisoryKeeps(e, ReceiverNotReady, false, finalBit);
    } else if txSeq != e.expectedTxSeq {
      SupervisoryKeeps(e, Reject, false, finalBit);
    } else {
      var counted := e.(expectedTxSeq := SequenceAdd(e.expectedTxSeq, 1),
                        history := e.history.(accepted := e.history.accepted + 1));
      AcceptKeeps(counted, sar, body);
      var accepted := AcceptInformation(counted, sar, body);
      if accepted.error.None? {
        OutputThenAcknowledgeKeeps(accepted.engine, finalBit);
      }
    }
  }

  lemma ResentKeeps(e: Engine, acked: bool, f: SupervisoryFunction, finalBit: bool, req: byte)
    requires Limited(e, e.config)
    ensures Limited(Resent(e, acked, f, finalBit, req).engine, e.config)
  {
    if f == SelectiveReject { RetransmitOneKeeps(e, req); } else { RetransmitAllKeeps(e); }
  }

  lemma ReceiveSupervisoryKeeps(e: Engine, acked: bool, f: SupervisoryFunction, poll: bool, finalBit: bool, req: byte)
    requires Limited(e, e.config)
    ensures Limited(ReceiveSupervisory(e, acked, f, poll, finalBit, req).engine, e.config)
  {
    hide Counted;
    var noted := e.(remoteBusy := f == ReceiverNotReady);
    ResentKeeps(noted, acked, f, finalBit, req);
    var resent := Resent(noted, acked, f, finalBit, req);
    if resent.error.None? {
      if poll {
        var answer := if resent.engine.localBusy then ReceiverNotReady else ReceiverReady;
        SupervisoryKeeps(resent.engine, answer, false, true);
        ProcessOutputKeeps(SendSupervisory(resent.engine, answer, false, true));
      } else {
        ProcessOutputKeeps(resent.engine);
      }
    }
  }

  lemma ReceiveKeeps(e: Engine, frame: seq<byte>)
    requires Limited(e, e.config)
    ensures Limited(ReceiveFrame(e, frame).engine, e.config)
  {
    if !e.failed && DecodeControl(frame).Success? {
      var control := DecodeControl(frame).value;
      AcknowledgeKeepsLimit(e, control.reqSeq);
      var a := Acknowledge(e, control.reqSeq);
      if a.error.None? {
        match control
        case Information(txSeq, finalBit, _, sar) =>
          ReceiveInformationKeeps(a.engine, txSeq, finalBit, sar, frame[2..]);
        case Supervisory(f, poll, finalBit, req) =>
          ReceiveSupervisoryKeeps(a.engine, |a.engine.window| != |e.window|, f, poll, finalBit, req);
      }
    }
  }

  // Nothing the invariant looks at changed.
  lemma SameKeeps(e: Engine, d: Engine)
    requires Limited(e, e.config)
    requires d == e.(now := d.now, localBusy := d.localBusy, received := d.received)
    ensures Limited(d, e.config)
  {
    hide Counted, Logged;
  }

  lemma PollKeeps(e: Engine)
    requires Limited(e, e.config)
    ensures Limited(PollOutbound(e), e.config)
  {
    hide Counted, Describes;
  }

  lemma SegmentsKeep(e: Engine, segments: seq<Segment>)
    requires Limited(e, e.config)
    ensures Limited(QueueSegments(e, segments), e.config)
  {
    hide Counted, Logged, Numbered;
    SegmentsNumbered(e, segments);
  }

  /** Every operation keeps the counters exact, whatever bytes arrive. */
  lemma PerformKeeps(e: Engine, op: Operation)
    requires Limited(e, e.config)
    ensures Limited(Perform(e, op), e.config)
  {
    hide Counted, Logged, Numbered, ProcessOutput, RetransmitAll, ReceiveFrame, SendSupervisory, Segments,
         QueueSegments;
    match op
    case Send(sdu) =>
      if |sdu| <= e.config.peerMtu {
        SegmentsKeep(e, Segments(sdu, e.config.peerMps));
        ProcessOutputKeeps(QueueSegments(e, Segments(sdu, e.config.peerMps)));
      }
    case Receive(frame) => ReceiveKeeps(e, frame);
    case Elapse(ticks) =>
      var later := e.(now := SaturatingAdd64(e.now, ticks));
      SameKeeps(e, later);
      RetransmitAllKeeps(later);
    case SetBusy(busy) =>
      SameKeeps(e, e.(localBusy := busy));
      SupervisoryKeeps(e.(localBusy := busy), if busy then ReceiverNotReady else ReceiverReady, false, false);
    case Poll => PollKeeps(e);
    case Pop => SameKeeps(e, PopReceived(e));
  }

  lemma SegmentsNumbered(e: Engine, segments: seq<Segment>)
    requires Numbered(e)
    ensures Numbered(QueueSegments(e, segments))
  {
    var d, k := QueueSegments(e, segments), e.history.acked + |e.window| + |e.pending|;
    forall i | 0 <= i < |d.pending| ensures d.pending[i].txSeq == (e.history.acked + |e.window| + i) % 64 {
      if i >= |e.pending| {
        Wraps(k, i - |e.pending|);
        assert d.pending[i] == Number(segments, e.nextTxSeq)[i - |e.pending|];
      }
    }
    Wraps(k, |segments|);
  }

  lemma Wraps(k: nat, i: nat)
    ensures (k % 64 + i) % 64 == (k + i) % 64
  {
  }

  ghost predicate Run(states: seq<Engine>, ops: seq<Operation>, config: Config) {
    && |states| == |ops| + 1
    && states[0] == Fresh(config)
    && forall i :: 0 <= i < |ops| ==> ValidConfig(states[i].config) && states[i + 1] == Perform(states[i], ops[i])
  }

  lemma FreshHolds(config: Config)
    requires ValidConfig(config) && config.maxRetransmissions != 0
    ensures Limited(Fresh(config), config)
  {
  }

  lemma {:induction false} RunKeeps(states: seq<Engine>, ops: seq<Operation>, config: Config, n: nat)
    requires ValidConfig(config) && config.maxRetransmissions != 0 && Run(states, ops, config) && n < |states|
    ensures Limited(states[n], config)
  {
    if n == 0 {
      FreshHolds(config);
    } else {
      RunKeeps(states, ops, config, n - 1);
      PerformKeeps(states[n - 1], ops[n - 1]);
      assert states[n - 1 + 1] == Perform(states[n - 1], ops[n - 1]);
    }
  }

  /**
    * No information frame is emitted more than `maxRetransmissions + 1` times in any run. What is counted are frames:
    * those still queued are the latest emissions, each with its serial's sequence number.
    */
  lemma EmissionBound(states: seq<Engine>, ops: seq<Operation>, config: Config, n: nat, serial: nat)
    requires ValidConfig(config) && config.maxRetransmissions != 0 && Run(states, ops, config) && n < |states|
    ensures Times(states[n].history.emitted, serial) <= config.maxRetransmissions + 1
    ensures Logged(states[n].outbound, states[n].history.queued, states[n].history.emitted)
  {
    RunKeeps(states, ops, config, n);
  }

  // The outstanding frame at window position `i` has been emitted as often as it may be.
  predicate Spent(e: Engine, i: nat) {
    i < |e.window| && Times(e.history.emitted, e.history.acked + i) == e.config.maxRetransmissions + 1
  }

  lemma SpentIsLimitReached(e: Engine, i: nat)
    requires Limited(e, e.config) && i < |e.window|
    ensures Spent(e, i) <==> LimitReached(e.config.maxRetransmissions, e.window[i])
  {
  }

  /** A retransmission trips the limit exactly when some outstanding frame has been emitted the full number of times. */
  lemma LimitTripsExactly(e: Engine)
    requires Limited(e, e.config) && !e.remoteBusy && !e.failed
    ensures RetransmitAll(e).engine.failed <==> exists i: nat :: Spent(e, i)
  {
    var k := FirstExhausted(e.window, e.config.maxRetransmissions);
    if k < |e.window| {
      SpentIsLimitReached(e, k);
    } else {
      forall i: nat ensures !Spent(e, i) {
        if i < |e.window| { SpentIsLimitReached(e, i); }
      }
    }
  }

  /** Once failed, an engine stays failed, emits nothing further, and only its queues can still be read. */
  lemma FailedIsFinal(e: Engine, op: Operation)
    requires ValidConfig(e.config) && e.failed
    ensures Perform(e, op).failed && Perform(e, op).history.emitted == e.history.emitted
    ensures Perform(e, op) == e || (op.Poll? && Perform(e, op) == PollOutbound(e))
            || (op.Pop? && Perform(e, op) == PopReceived(e))
  {
  }

  lemma {:induction false} FailedForever(states: seq<Engine>, ops: seq<Operation>, config: Config, m: nat, n: nat)
    requires ValidConfig(config) && Run(states, ops, config) && m <= n < |states| && states[m].failed
    ensures states[n].failed && states[n].history.emitted == states[m].history.emitted
  {
    if m < n {
      FailedForever(states, ops, config, m, n - 1);
      FailedIsFinal(states[n - 1], ops[n - 1]);
      assert states[n - 1 + 1] == Perform(states[n - 1], ops[n - 1]);
    }
  }
}
