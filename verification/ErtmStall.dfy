/**
  * Progress over lossy links. An engine that takes its peer for busy sends no
  * information frame, not even when its timer runs out, and never asks whether the
  * peer still is. If the frame that ended the busy period is lost, the data stays
  * where it is until the peer becomes busy, or idle, once more: nothing else either
  * side does brings it back.
  */
module ErtmStall {
  import opened Bytes
  import opened Ertm
  import opened ErtmLink

  predicate AllInfo(tags: seq<Tag>) { forall i :: 0 <= i < |tags| ==> tags[i].Info? }

  predicate AllSuper(tags: seq<Tag>) { forall i :: 0 <= i < |tags| ==> tags[i].Super? }

  // The right side takes the left for busy, and no frame in flight could change that or make the left answer.
  predicate Stuck(s: System) {
    && s.right.engine.remoteBusy
    && AllInfo(s.left.engine.history.queued) && AllSuper(s.right.engine.history.queued)
  }

  // The left's user reports a change.
  predicate Toggles(s: System, move: Move) {
    move.byLeft && move.action.SetBusy? && move.action.busy != s.left.engine.localBusy && !s.left.engine.failed
  }

  // ---------------------------------------------------------------------------
  // What one engine emits
  // ---------------------------------------------------------------------------

  // From `e` to `d` only information frames were queued, and nothing was taken in.
  predicate AddsInfo(e: Engine, d: Engine) {
    && d.received == e.received && d.history.accepted == e.history.accepted
    && (AllInfo(e.history.queued) ==> AllInfo(d.history.queued))
  }

  lemma ProcessOutputAddsInfo(e: Engine)
    ensures var d := ProcessOutput(e);
            AddsInfo(e, d) && d.remoteBusy == e.remoteBusy && d.localBusy == e.localBusy && d.failed == e.failed
  {
  }

  lemma RetransmitAddsInfo(e: Engine)
    ensures var d := RetransmitAll(e).engine;
            AddsInfo(e, d) && d.remoteBusy == e.remoteBusy && d.localBusy == e.localBusy
  {
  }

  // From `e` to `d` no information frame was queued, and the peer is still taken for busy.
  predicate AddsSuper(e: Engine, d: Engine) {
    && d.remoteBusy
    && (AllSuper(e.history.queued) ==> AllSuper(d.history.queued))
    && |e.history.emitted| <= |d.history.emitted| && d.history.emitted[..|e.history.emitted|] == e.history.emitted
    && AllSuper(d.history.emitted[|e.history.emitted|..])
  }

  lemma SameAddsSuper(e: Engine, d: Engine)
    requires e.remoteBusy && d.remoteBusy && d.history.queued == e.history.queued
             && d.history.emitted == e.history.emitted
    ensures AddsSuper(e, d)
  {
    assert d.history.emitted[|e.history.emitted|..] == [];
  }

  lemma SupervisoryAddsSuper(e: Engine, d: Engine, f: SupervisoryFunction, finalBit: bool)
    requires e.remoteBusy && d.remoteBusy && d.history.queued == e.history.queued
             && d.history.emitted == e.history.emitted
    ensures AddsSuper(e, SendSupervisory(d, f, false, finalBit))
  {
    var tag := Super(f, false, finalBit, d.history.accepted);
    assert (e.history.emitted + [tag])[|e.history.emitted|..] == [tag];
  }

  // ---------------------------------------------------------------------------
  // What arrives
  // ---------------------------------------------------------------------------

  /** The oldest frame on the link to `x` decodes to what its tag says, and acknowledges only what was sent. */
  lemma OldestDecodes(x: Side, y: Side)
    requires Half(x, y) && Half(y, x) && y.engine.outbound != []
    ensures y.engine.history.queued != []
    ensures var tag, frame := y.engine.history.queued[0], y.engine.outbound[0];
            && Acknowledge(x.engine, tag.req % 64).error.None?
            && match tag
               case Info(serial, req) =>
                 exists sar :: DecodeControl(frame) == Success(Information(serial % 64, false, req % 64, sar))
               case Super(f, poll, finalBit, req) =>
                 f != SelectiveReject && DecodeControl(frame) == Success(Supervisory(f, false, false, req % 64))
  {
    var tags, frame := y.engine.history.queued, y.engine.outbound[0];
    var tag := tags[0];
    assert Genuine(tag, frame, StreamOf(y), Sent(y.engine));
    Facts(x, y);
    AcknowledgeSender(x.engine, StreamOf(x), tag.req);
    match tag
    case Info(serial, req) =>
      var f := FrameAt(StreamOf(y), serial);
      FrameEncodings(f, ReceiverReady, false, false, req % 64);
      assert DecodeControl(frame) == Success(Information(serial % 64, false, req % 64, f.segment.sar));
    case Super(f, poll, finalBit, req) =>
      FrameEncodings(PendingFrame(Segment([], Unsegmented, None), 0), f, false, false, req % 64);
  }

  lemma AcknowledgeQueuesNothing(e: Engine, req: SeqNo)
    ensures var a := Acknowledge(e, req).engine;
            && a.history.queued == e.history.queued && a.history.emitted == e.history.emitted
            && a.history.accepted == e.history.accepted && a.received == e.received && a.outbound == e.outbound
            && a.remoteBusy == e.remoteBusy && a.localBusy == e.localBusy && a.failed == e.failed
  {
  }

  /** An information frame never ends a busy period, and is answered with supervisory frames only. */
  lemma InfoIsAnswered(e: Engine, txSeq: byte, sar: Sar, body: seq<byte>)
    requires e.remoteBusy
    ensures AddsSuper(e, ReceiveInformation(e, txSeq, false, sar, body).engine)
  {
    SupervisoryAddsSuper(e, e, ReceiverNotReady, false);
    SupervisoryAddsSuper(e, e, Reject, false);
    var counted := e.(expectedTxSeq := SequenceAdd(e.expectedTxSeq, 1),
                      history := e.history.(accepted := e.history.accepted + 1));
    var a := AcceptInformation(counted, sar, body).engine;
    SameAddsSuper(e, a);
    SupervisoryAddsSuper(e, a, ReceiverReady, false);
    hide Accept, SendSupervisory;
  }

  lemma StuckReceives(x: Side, y: Side)
    requires Half(x, y) && Half(y, x) && x.engine.remoteBusy && y.engine.outbound != []
             && y.engine.history.queued[0].Info?
    ensures AddsSuper(x.engine, ReceiveFrame(x.engine, y.engine.outbound[0]).engine)
  {
    OldestDecodes(x, y);
    hide Half, DecodeControl, ReceiveInformation, Acknowledge;
    var e, frame, req := x.engine, y.engine.outbound[0], y.engine.history.queued[0].req % 64;
    SameAddsSuper(e, e);
    if !e.failed {
      var c := DecodeControl(frame).value;
      var a := Acknowledge(e, req).engine;
      AcknowledgeQueuesNothing(e, req);
      InfoIsAnswered(a, c.txSeq, c.sar, frame[2..]);
    }
  }

  /** A report without a poll is never answered; it may make the engine send information frames. */
  lemma ReportReceived(x: Side, y: Side)
    requires Half(x, y) && Half(y, x) && y.engine.outbound != [] && y.engine.history.queued[0].Super?
    ensures var d := ReceiveFrame(x.engine, y.engine.outbound[0]).engine;
            && AddsInfo(x.engine, d) && d.localBusy == x.engine.localBusy
            && (y.engine.history.queued[0].function_ != Reject ==> d.failed == x.engine.failed)
            && d.remoteBusy == (if x.engine.failed then x.engine.remoteBusy
                                else y.engine.history.queued[0].function_ == ReceiverNotReady)
  {
    OldestDecodes(x, y);
    hide Half, DecodeControl, ReceiveSupervisory, Acknowledge;
    var e, tag := x.engine, y.engine.history.queued[0];
    if !e.failed {
      var a := Acknowledge(e, tag.req % 64).engine;
      AcknowledgeQueuesNothing(e, tag.req % 64);
      ReportIsTaken(a, |a.window| != |e.window|, tag.function_, tag.req % 64);
    }
  }

  lemma ReportIsTaken(e: Engine, acked: bool, f: SupervisoryFunction, req: SeqNo)
    requires f != SelectiveReject
    ensures var d := ReceiveSupervisory(e, acked, f, false, false, req).engine;
            && AddsInfo(e, d) && d.localBusy == e.localBusy && d.remoteBusy == (f == ReceiverNotReady)
            && (f != Reject ==> d.failed == e.failed)
  {
    hide ProcessOutput, RetransmitAll, RetransmitOne, AllInfo;
    var noted := e.(remoteBusy := f == ReceiverNotReady);
    RetransmitAddsInfo(noted);
    ProcessOutputAddsInfo(Resent(noted, acked, f, false, req).engine);
  }

  // ---------------------------------------------------------------------------
  // One move
  // ---------------------------------------------------------------------------

  lemma WithoutKeeps(tags: seq<Tag>, i: nat)
    ensures AllInfo(tags) ==> AllInfo(Without(tags, i))
    ensures AllSuper(tags) ==> AllSuper(Without(tags, i))
  {
  }

  /** Any action of the left side but a change of its busy state. */
  lemma LeftStaysStuck(s: System, action: Action)
    requires Inv(s) && Stuck(s) && !Toggles(s, Move(true, action))
    ensures var t := Act(s, action);
            && Stuck(t) && t.right.engine.history.emitted == s.right.engine.history.emitted
            && t.left.popped + t.left.engine.received == s.left.popped + s.left.engine.received
  {
    hide Half, SendSdu, ReceiveFrame, RetransmitAll;
    var e := s.left.engine;
    Facts(s.left, s.right);
    match action
    case Send(sdu) => SendAddsInfo(e, sdu);
    case Deliver =>
      if s.right.engine.outbound != [] {
        OldestDecodes(s.left, s.right);
        ReportReceived(s.left, s.right);
      }
    case Drop(i) => WithoutKeeps(e.history.queued, i);
    case Elapse(ticks) => RetransmitAddsInfo(e.(now := SaturatingAdd64(e.now, ticks)));
    case SetBusy(busy) =>
    case Pop => if e.received != [] { PopKeepsDelivered(s.left.popped, e.received); }
  }

  lemma PopKeepsDelivered(popped: seq<seq<byte>>, received: seq<seq<byte>>)
    requires received != []
    ensures popped + [received[0]] + received[1..] == popped + received
  {
  }

  lemma SendAddsInfo(e: Engine, sdu: seq<byte>)
    requires ValidConfig(e.config)
    ensures AddsInfo(e, SendSdu(e, sdu).engine)
  {
    if |sdu| <= e.config.peerMtu { ProcessOutputAddsInfo(QueueSegments(e, Segments(sdu, e.config.peerMps))); }
    hide ProcessOutput, Segments;
  }

  /** Any action of the side that waits. */
  lemma RightStaysStuck(s: System, action: Action)
    requires Inv(s) && Stuck(Swap(s))
    ensures var t := Act(s, action);
            && Stuck(Swap(t)) && AddsSuper(s.left.engine, t.left.engine)
            && t.right.popped == s.right.popped && t.right.engine.received == s.right.engine.received
  {
    hide Half, ReceiveFrame, Segments;
    var e := s.left.engine;
    Facts(s.left, s.right);
    SameAddsSuper(e, Act(s, Pop).left.engine);
    match action
    case Send(sdu) => SameAddsSuper(e, SendSdu(e, sdu).engine);
    case Deliver =>
      SameAddsSuper(e, e);
      if s.right.engine.outbound != [] {
        OldestDecodes(s.left, s.right);
        StuckReceives(s.left, s.right);
      }
    case Drop(i) =>
      WithoutKeeps(e.history.queued, i);
      assert e.history.emitted[|e.history.emitted|..] == [];
    case Elapse(ticks) => SameAddsSuper(e, Tick(e, ticks).engine);
    case SetBusy(busy) =>
      SameAddsSuper(e, e);
      SupervisoryAddsSuper(e, e.(localBusy := busy), if busy then ReceiverNotReady else ReceiverReady, false);
    case Pop =>
  }

  // What the left side has been handed.
  function Delivered(s: System): seq<seq<byte>> { s.left.popped + s.left.engine.received }

  /** Sends, deliveries, losses, ticks, reads and the right side's own busy changes all leave things as they are. */
  lemma StaysStuck(s: System, move: Move)
    requires Inv(s) && Stuck(s) && !Toggles(s, move)
    ensures var t := Apply(s, move);
            Stuck(t) && Delivered(t) == Delivered(s) && AddsSuper(s.right.engine, t.right.engine)
  {
    hide Half, Act;
    if move.byLeft {
      LeftStaysStuck(s, move.action);
      assert s.right.engine.history.emitted[|s.right.engine.history.emitted|..] == [];
    } else {
      RightStaysStuck(Swap(s), move.action);
    }
  }

  // The frame about to be delivered to the right tells it that the left can receive.
  predicate Releases(s: System, move: Move) {
    && !move.byLeft && move.action.Deliver? && !s.right.engine.failed
    && s.left.engine.outbound != [] && s.left.engine.history.queued != []
    && s.left.engine.history.queued[0].Super? && s.left.engine.history.queued[0].function_ != ReceiverNotReady
  }

  /** A side stops taking its peer for busy exactly when a supervisory frame other than receiver-not-ready arrives. */
  lemma BusyEndsExactly(s: System, move: Move)
    requires Inv(s) && s.right.engine.remoteBusy
    ensures !Apply(s, move).right.engine.remoteBusy <==> Releases(s, move)
  {
    hide Half, ReceiveFrame, Segments;
    var x, y := s.right, s.left;
    Facts(x, y);
    if !move.byLeft && move.action.Deliver? && y.engine.outbound != [] {
      OldestDecodes(x, y);
      if y.engine.history.queued[0].Info? { StuckReceives(x, y); } else { ReportReceived(x, y); }
    }
  }

  // ---------------------------------------------------------------------------
  // Whole runs
  // ---------------------------------------------------------------------------

  lemma AddsSuperTransitive(a: Engine, b: Engine, c: Engine)
    requires AddsSuper(a, b) && AddsSuper(b, c)
    ensures AddsSuper(a, c)
  {
    var x, y, z := a.history.emitted, b.history.emitted, c.history.emitted;
    assert z[..|x|] == z[..|y|][..|x|];
    assert z[|x|..] == y[|x|..] + z[|y|..];
  }

  /** As long as the left's user reports no change, nothing more is delivered to it and the right resends nothing. */
  lemma {:induction false} StuckForever(states: seq<System>, moves: seq<Move>, left: Config, right: Config, m: nat,
                                        n: nat)
    requires Compatible(left, right) && Run(states, moves, left, right) && m <= n < |states| && Stuck(states[m])
    requires forall i :: m <= i < n ==> !Toggles(states[i], moves[i])
    ensures Stuck(states[n]) && Delivered(states[n]) == Delivered(states[m])
    ensures AddsSuper(states[m].right.engine, states[n].right.engine)
  {
    hide Apply, Half, AllInfo, AllSuper, Toggles;
    if m == n {
      SameAddsSuper(states[m].right.engine, states[n].right.engine);
    } else {
      StuckForever(states, moves, left, right, m, n - 1);
      RunKeeps(states, moves, left, right, n - 1);
      assert states[n - 1 + 1] == Apply(states[n - 1], moves[n - 1]);
      StaysStuck(states[n - 1], moves[n - 1]);
      AddsSuperTransitive(states[m].right.engine, states[n - 1].right.engine, states[n].right.engine);
    }
  }

  /** Whatever ends it: the left's user reported a change before. */
  lemma RecoveryNeedsChange(states: seq<System>, moves: seq<Move>, left: Config, right: Config, m: nat, n: nat)
    returns (i: nat)
    requires Compatible(left, right) && Run(states, moves, left, right) && m <= n < |states| && Stuck(states[m])
    requires !states[n].right.engine.remoteBusy || Delivered(states[n]) != Delivered(states[m])
    ensures m <= i < n && Toggles(states[i], moves[i])
  {
    hide Apply, Toggles;
    if j :| m <= j < n && Toggles(states[j], moves[j]) {
      i := j;
    } else {
      StuckForever(states, moves, left, right, m, n);
      assert false;
    }
  }

  // ---------------------------------------------------------------------------
  // Recovery
  // ---------------------------------------------------------------------------

  function Play(s: System, moves: seq<Move>): System
    requires Inv(s)
    decreases |moves|
  {
    if moves == [] then s
    else
      ApplyKeeps(s, moves[0]);
      Play(Apply(s, moves[0]), moves[1..])
  }

  function Deliveries(n: nat): seq<Move> { if n == 0 then [] else [Move(false, Deliver)] + Deliveries(n - 1) }

  // Information frames, receiver-ready and receiver-not-ready frames, the last of them receiver-ready.
  predicate EndsReady(tags: seq<Tag>) {
    && (forall i :: 0 <= i < |tags| && tags[i].Super? ==>
        tags[i].function_ == ReceiverReady || tags[i].function_ == ReceiverNotReady)
    && tags != [] && tags[|tags| - 1].Super? && tags[|tags| - 1].function_ == ReceiverReady
  }

  lemma InformationDoesNotFail(e: Engine, txSeq: byte, sar: Sar, body: seq<byte>)
    ensures ReceiveInformation(e, txSeq, false, sar, body).engine.failed == e.failed
  {
    hide ProcessOutput, Accept;
    var counted := e.(expectedTxSeq := SequenceAdd(e.expectedTxSeq, 1),
                      history := e.history.(accepted := e.history.accepted + 1));
    ProcessOutputAddsInfo(AcceptInformation(counted, sar, body).engine);
  }

  lemma InfoDoesNotFail(x: Side, y: Side)
    requires Half(x, y) && Half(y, x) && y.engine.outbound != [] && y.engine.history.queued[0].Info? && !x.engine.failed
    ensures !ReceiveFrame(x.engine, y.engine.outbound[0]).engine.failed
  {
    OldestDecodes(x, y);
    hide Half, DecodeControl, Acknowledge, ReceiveInformation;
    var e, frame, req := x.engine, y.engine.outbound[0], y.engine.history.queued[0].req % 64;
    AcknowledgeQueuesNothing(e, req);
    var c := DecodeControl(frame).value;
    InformationDoesNotFail(Acknowledge(e, req).engine, c.txSeq, c.sar, frame[2..]);
  }

  lemma InvConfigs(s: System)
    requires Inv(s)
    ensures ValidConfigs(s) && |s.left.engine.history.queued| == |s.left.engine.outbound|
  {
  }

  lemma DeliverFirst(s: System)
    requires Inv(s) && !s.right.engine.failed && EndsReady(s.left.engine.history.queued)
    ensures ValidConfigs(s)
    ensures var t := Apply(s, Move(false, Deliver));
            && t.left.engine.history.queued == s.left.engine.history.queued[1..] && !t.right.engine.failed
            && (|s.left.engine.history.queued| == 1 ==> !t.right.engine.remoteBusy)
  {
    InvConfigs(s);
    hide Half, ReceiveFrame;
    OldestDecodes(s.right, s.left);
    if s.left.engine.history.queued[0].Info? {
      InfoDoesNotFail(s.right, s.left);
    } else {
      ReportReceived(s.right, s.left);
    }
  }

  lemma {:induction false} DeliveredReady(s: System)
    requires Inv(s) && !s.right.engine.failed && EndsReady(s.left.engine.history.queued)
    ensures !Play(s, Deliveries(|s.left.engine.history.queued|)).right.engine.remoteBusy
    decreases |s.left.engine.history.queued|
  {
    hide Inv, Apply, ValidConfigs;
    DeliverFirst(s);
    ApplyKeeps(s, Move(false, Deliver));
    var tags, t := s.left.engine.history.queued, Apply(s, Move(false, Deliver));
    assert Deliveries(|tags|)[1..] == Deliveries(|tags| - 1);
    if |tags| == 1 {
      assert Deliveries(0) == [];
    } else {
      assert tags[1..][|tags| - 2] == tags[|tags| - 1];
      DeliveredReady(t);
    }
  }

  // What the left's user can do about it: report busy, then not busy; what was already reported is not repeated.
  function Reports(s: System): seq<Move> {
    [Move(true, SetBusy(!s.left.engine.localBusy)), Move(true, SetBusy(false))]
  }

  // One report of the left's user, and the frame it queues.
  lemma ReportQueued(s: System, busy: bool)
    requires Inv(s) && !s.left.engine.failed
    ensures ValidConfigs(s)
    ensures var t := Apply(s, Move(true, SetBusy(busy)));
            var tag := Super(if busy then ReceiverNotReady else ReceiverReady, false, false,
                             s.left.engine.history.accepted);
            && Inv(t) && t.right == s.right && !t.left.engine.failed && t.left.engine.localBusy == busy
            && t.left.engine.history.queued == s.left.engine.history.queued
               + (if s.left.engine.localBusy == busy then [] else [tag])
  {
    hide Half, SendSdu, ReceiveFrame, Tick, Lose, PollOutbound, EncodeSupervisory;
    InvConfigs(s);
    ApplyKeeps(s, Move(true, SetBusy(busy)));
  }

  /** A change does end it, if neither side has failed and what is then in flight arrives. */
  lemma ChangeRecovers(s: System)
    requires Inv(s) && Stuck(s) && !s.left.engine.failed && !s.right.engine.failed
    ensures var t := Play(s, Reports(s));
            Inv(t) && !Play(t, Deliveries(|t.left.engine.history.queued|)).right.engine.remoteBusy
  {
    hide Inv, Apply, ValidConfigs, Deliveries;
    var first, second := Reports(s)[0], Reports(s)[1];
    ReportQueued(s, !s.left.engine.localBusy);
    var t := Apply(s, first);
    ReportQueued(t, false);
    var u := Apply(t, second);
    assert Reports(s)[1..] == [second] && [second][1..] == [];
    assert Play(u, []) == u && Play(t, [second]) == u && Play(s, Reports(s)) == u;
    DeliveredReady(u);
  }

  // ---------------------------------------------------------------------------
  // It happens
  // ---------------------------------------------------------------------------

  function StallMoves(sdu: seq<byte>): seq<Move> {
    [Move(true, SetBusy(true)), Move(false, Deliver), Move(true, SetBusy(false)), Move(true, Drop(0)),
     Move(false, Send(sdu))]
  }

  // What two fresh engines are after the busy report arrived, and after its end was lost.
  function Reported(left: Config, right: Config): System {
    var busy := Super(ReceiverNotReady, false, false, 0);
    System(Side(Fresh(left).(localBusy := true, history := History(0, 0, 0, [], [busy])), [], [], []),
           Side(Fresh(right).(remoteBusy := true), [], [], []))
  }

  function Lost(left: Config, right: Config): System {
    var emitted := [Super(ReceiverNotReady, false, false, 0), Super(ReceiverReady, false, false, 0)];
    System(Side(Fresh(left).(history := History(0, 0, 0, [], emitted)), [], [], []),
           Side(Fresh(right).(remoteBusy := true), [], [], []))
  }

  lemma BusyNoted(c: Config)
    ensures ReceiveSupervisory(Fresh(c), false, ReceiverNotReady, false, false, 0)
            == Step(Fresh(c).(remoteBusy := true), None)
  {
    hide RetransmitAll, RetransmitOne, Advance, RefreshDeadline;
  }

  lemma FreshAcknowledges(c: Config)
    ensures Acknowledge(Fresh(c), 0) == Step(Fresh(c), None)
  {
  }

  lemma BusyTaken(c: Config)
    ensures ReceiveFrame(Fresh(c), EncodeSupervisory(ReceiverNotReady, false, false, 0))
            == Step(Fresh(c).(remoteBusy := true), None)
  {
    hide DecodeControl, EncodeSupervisory, EncodeControl, ReceiveSupervisory, ReceiveInformation, Acknowledge,
         EncodeFrame, Body;
    FrameEncodings(PendingFrame(Segment([], Unsegmented, None), 0), ReceiverNotReady, false, false, 0);
    BusyNoted(c);
    FreshAcknowledges(c);
  }

  lemma ReportArrives(left: Config, right: Config)
    requires Compatible(left, right)
    ensures var s := Apply(Begin(left, right), Move(true, SetBusy(true)));
            ValidConfigs(Begin(left, right)) && ValidConfigs(s)
                && Apply(s, Move(false, Deliver)) == Reported(left, right)
  {
    hide ReceiveFrame, EncodeSupervisory;
    BusyTaken(right);
    var s := Apply(Begin(left, right), Move(true, SetBusy(true)));
    assert s.left.engine.outbound == [EncodeSupervisory(ReceiverNotReady, false, false, 0)];
  }

  lemma EndIsLost(left: Config, right: Config)
    requires Compatible(left, right)
    ensures var s := Apply(Reported(left, right), Move(true, SetBusy(false)));
            ValidConfigs(Reported(left, right)) && ValidConfigs(s) && Apply(s, Move(true, Drop(0))) == Lost(left, right)
  {
    hide EncodeSupervisory;
  }

  lemma SubmittedInVain(left: Config, right: Config, sdu: seq<byte>)
    requires Compatible(left, right) && |sdu| <= right.peerMtu
    ensures var s := Apply(Lost(left, right), Move(false, Send(sdu)));
            && ValidConfigs(Lost(left, right)) && Stuck(s) && s.right.submitted == [sdu] && Delivered(s) == []
            && !s.left.engine.localBusy && !s.left.engine.failed && !s.right.engine.failed
  {
    hide Segments, Number;
  }

  /** For any two compatible engines and any SDU, losing one frame is enough. */
  lemma StallIsReachable(left: Config, right: Config, sdu: seq<byte>) returns (states: seq<System>)
    requires Compatible(left, right) && |sdu| <= right.peerMtu
    ensures |states| == 6 && Run(states, StallMoves(sdu), left, right)
    ensures Stuck(states[5]) && states[5].right.submitted == [sdu] && Delivered(states[5]) == []
    ensures !states[5].left.engine.localBusy && !states[5].left.engine.failed && !states[5].right.engine.failed
  {
    hide Apply, Stuck, Delivered, ValidConfigs, Begin, Reported, Lost;
    ReportArrives(left, right);
    EndIsLost(left, right);
    SubmittedInVain(left, right, sdu);
    var moves, s0, s2, s4 := StallMoves(sdu), Begin(left, right), Reported(left, right), Lost(left, right);
    states := [s0, Apply(s0, moves[0]), s2, Apply(s2, moves[2]), s4, Apply(s4, moves[4])];
  }
}
