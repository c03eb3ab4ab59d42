/**
  * Two engines on lossless links with no busy toggles and no clock ticks: every
  * delivery strictly uses up work, so relaying always terminates, and when nothing
  * is in transit every submitted SDU has been delivered and acknowledged. No
  * error is raised.
  */
module ErtmQuiescence {
  import opened Bytes
  import opened Ertm
  import opened ErtmStream
  import opened ErtmLink

  function One(tag: Tag): seq<nat> { if tag.Info? then [tag.serial] else [] }

  // The serial numbers of the information frames on a link, oldest first.
  function Infos(tags: seq<Tag>): seq<nat> {
    if tags == [] then [] else One(tags[0]) + Infos(tags[1..])
  }

  function Range(from: nat, to: nat): seq<nat>
    requires from <= to
  {
    seq(to - from, i requires 0 <= i < to - from => from + i)
  }

  // The latest acknowledgment the peer will have seen once the link is empty.
  function LastReq(tags: seq<Tag>, acked: nat): nat {
    if tags == [] then acked else tags[|tags| - 1].req
  }

  // An information frame costs its delivery and an answer, a supervisory frame its delivery.
  function Weight(tags: seq<Tag>): nat {
    if tags == [] then 0 else (if tags[0].Info? then 2 else 1) + Weight(tags[1..])
  }

  lemma {:induction false} InfosConcat(s: seq<Tag>, t: seq<Tag>)
    ensures Infos(s + t) == Infos(s) + Infos(t)
  {
    if s == [] {
      assert s + t == t;
    } else {
      hide One;
      calc {
        Infos(s + t);
      ==
        One((s + t)[0]) + Infos((s + t)[1..]);
      == { assert (s + t)[1..] == s[1..] + t; }
        One(s[0]) + Infos(s[1..] + t);
      == { InfosConcat(s[1..], t); }
        One(s[0]) + (Infos(s[1..]) + Infos(t));
      ==
        Infos(s) + Infos(t);
      }
    }
  }

  lemma {:induction false} WeightConcat(s: seq<Tag>, t: seq<Tag>)
    ensures Weight(s + t) == Weight(s) + Weight(t)
  {
    if s == [] {
      assert s + t == t;
    } else {
      WeightConcat(s[1..], t);
      assert (s + t)[1..] == s[1..] + t;
    }
  }

  lemma {:induction false} InfosOfRange(first: nat, count: nat, req: nat)
    ensures Infos(InfoTags(first, count, req)) == Range(first, first + count)
    ensures Weight(InfoTags(first, count, req)) == 2 * count
    decreases count
  {
    if count > 0 {
      assert InfoTags(first, count, req)[1..] == InfoTags(first + 1, count - 1, req);
      InfosOfRange(first + 1, count - 1, req);
    }
  }

  predicate CalmEngine(e: Engine) {
    && !e.failed && !e.remoteBusy && !e.localBusy
    && e.lastAckedRxSeq == e.expectedTxSeq
    && (e.pending != [] ==> |e.window| == e.config.txWindowSize)
  }

  // The link holds exactly the frames sent and not yet accepted, in order, and its
  // latest acknowledgment is current.
  predicate CalmQueue(tags: seq<Tag>, from: nat, to: nat, acked: nat, accepted: nat) {
    && from <= to
    && Infos(tags) == Range(from, to)
    && LastReq(tags, acked) == accepted
    && forall i :: 0 <= i < |tags| && tags[i].Super? ==> tags[i].function_ == ReceiverReady
  }

  predicate Calm(x: Side, y: Side) {
    && CalmEngine(x.engine)
    && CalmQueue(x.engine.history.queued, y.engine.history.accepted, Sent(x.engine),
                 y.engine.history.acked, x.engine.history.accepted)
    && x.raised == []
  }

  predicate CalmSystem(s: System) { Inv(s) && Calm(s.left, s.right) && Calm(s.right, s.left) }

  function Load(x: Side): nat { 3 * |x.engine.pending| + Weight(x.engine.history.queued) }

  // What is left to relay.
  function Work(s: System): nat { Load(s.left) + Load(s.right) }

  // ---------------------------------------------------------------------------
  // Output on a calm engine
  // ---------------------------------------------------------------------------

  /** What `process_output` sends when the peer is not busy. */
  lemma OutputExactly(e: Engine)
    requires !e.remoteBusy
    ensures var d, n := ProcessOutput(e), Room(e);
            && d.history.queued == e.history.queued + InfoTags(Sent(e), n, e.history.accepted)
            && Sent(d) == Sent(e) + n && |d.pending| == |e.pending| - n
            && (d.pending != [] ==> |d.window| >= d.config.txWindowSize)
            && d.lastAckedRxSeq == (if n == 0 then e.lastAckedRxSeq else e.expectedTxSeq)
            && d.expectedTxSeq == e.expectedTxSeq && d.config == e.config
            && d.history.acked == e.history.acked && d.history.accepted == e.history.accepted
            && d.failed == e.failed && d.remoteBusy == e.remoteBusy && d.localBusy == e.localBusy
  {
    assert e.history.queued + [] == e.history.queued;
    assert InfoTags(Sent(e), 0, e.history.accepted) == [];
  }

  /** Sending `n` further frames keeps a link calm; each costs less on the link than it did pending. */
  lemma QueueTakesOutput(tags: seq<Tag>, from: nat, to: nat, acked: nat, accepted: nat, n: nat, req: nat)
    requires CalmQueue(tags, from, to, acked, accepted)
    requires n == 0 ==> req == accepted
    ensures CalmQueue(tags + InfoTags(to, n, req), from, to + n, acked, req)
    ensures Weight(tags + InfoTags(to, n, req)) == Weight(tags) + 2 * n
  {
    InfosConcat(tags, InfoTags(to, n, req));
    WeightConcat(tags, InfoTags(to, n, req));
    InfosOfRange(to, n, req);
    assert Range(from, to) + Range(to, to + n) == Range(from, to + n);
    if n == 0 { assert tags + InfoTags(to, n, req) == tags; }
  }

  /** A receiver-ready makes any acknowledgment current. */
  lemma QueueTakesReady(tags: seq<Tag>, from: nat, to: nat, acked: nat, accepted: nat, req: nat)
    requires CalmQueue(tags, from, to, acked, accepted)
    ensures CalmQueue(tags + [Super(ReceiverReady, false, false, req)], from, to, acked, req)
    ensures Weight(tags + [Super(ReceiverReady, false, false, req)]) == Weight(tags) + 1
  {
    var ready := [Super(ReceiverReady, false, false, req)];
    assert ready[1..] == [];
    InfosConcat(tags, ready);
    WeightConcat(tags, ready);
    assert Infos(ready) == [] + [] && Infos(tags) + [] == Infos(tags);
  }

  lemma InfosPop(tags: seq<Tag>, from: nat, to: nat)
    requires tags != [] && from <= to && Infos(tags) == Range(from, to)
    ensures tags[0].Info? ==> tags[0].serial == from < to && Infos(tags[1..]) == Range(from + 1, to)
    ensures tags[0].Super? ==> Infos(tags[1..]) == Range(from, to)
  {
    if tags[0].Info? {
      assert Infos(tags)[0] == tags[0].serial;
      assert Infos(tags)[1..] == Infos(tags[1..]);
      assert Range(from, to)[1..] == Range(from + 1, to);
    } else {
      assert Infos(tags) == [] + Infos(tags[1..]);
    }
  }

  /** Taking the oldest frame off a calm link: an information frame there is the next to accept. */
  lemma QueuePops(tags: seq<Tag>, from: nat, to: nat, acked: nat, accepted: nat)
    requires tags != [] && CalmQueue(tags, from, to, acked, accepted)
    ensures tags[0].Info? ==> tags[0].serial == from < to && CalmQueue(tags[1..], from + 1, to, tags[0].req, accepted)
    ensures tags[0].Super? ==>
            tags[0].function_ == ReceiverReady && CalmQueue(tags[1..], from, to, tags[0].req, accepted)
    ensures Weight(tags) == Weight(tags[1..]) + (if tags[0].Info? then 2 else 1)
  {
    InfosPop(tags, from, to);
    hide Infos, Range;
    var rest := tags[1..];
    assert forall i :: 0 <= i < |rest| ==> rest[i] == tags[i + 1];
  }

  // ---------------------------------------------------------------------------
  // Deliveries and sends
  // ---------------------------------------------------------------------------

  // How far a delivery moved `x` from `e`, given what `e` already owes: the queue, the window, the work.
  predicate Answered(e: Engine, d: Engine, from: nat, acked: nat, budget: nat) {
    && CalmEngine(d)
    && CalmQueue(d.history.queued, from, Sent(d), acked, d.history.accepted)
    && d.config == e.config && d.history.accepted == e.history.accepted && d.history.acked == e.history.acked
    && 3 * |d.pending| + Weight(d.history.queued) <= 3 * |e.pending| + Weight(e.history.queued) + budget
  }

  /** Output on an engine that owes no acknowledgment. */
  lemma OutputCalms(e: Engine, from: nat, acked: nat)
    requires !e.failed && !e.remoteBusy && !e.localBusy && e.lastAckedRxSeq == e.expectedTxSeq
    requires |e.window| <= e.config.txWindowSize
    requires CalmQueue(e.history.queued, from, Sent(e), acked, e.history.accepted)
    ensures Answered(e, ProcessOutput(e), from, acked, 0)
  {
    hide CalmQueue, Weight;
    OutputExactly(e);
    QueueTakesOutput(e.history.queued, from, Sent(e), acked, e.history.accepted, Room(e), e.history.accepted);
    assert |ProcessOutput(e).window| <= e.config.txWindowSize;
  }

  /** Output on an engine that has just accepted a frame: the acknowledgment goes out one way or the other. */
  lemma OutputAcknowledges(e: Engine, from: nat, acked: nat, accepted: nat)
    requires !e.failed && !e.remoteBusy && !e.localBusy && e.lastAckedRxSeq != e.expectedTxSeq
    requires |e.window| <= e.config.txWindowSize
    requires CalmQueue(e.history.queued, from, Sent(e), acked, accepted)
    ensures Answered(e, OutputThenAcknowledge(e, false), from, acked, 1)
  {
    hide CalmQueue, Weight;
    OutputExactly(e);
    var o, n := ProcessOutput(e), Room(e);
    assert |o.window| <= e.config.txWindowSize;
    if n == 0 {
      QueueTakesOutput(e.history.queued, from, Sent(e), acked, accepted, 0, accepted);
      assert o.history.queued == e.history.queued by {
        assert InfoTags(Sent(e), 0, e.history.accepted) == [];
        assert e.history.queued + [] == e.history.queued;
      }
      QueueTakesReady(e.history.queued, from, Sent(e), acked, accepted, e.history.accepted);
    } else {
      QueueTakesOutput(e.history.queued, from, Sent(e), acked, accepted, n, e.history.accepted);
    }
  }

  /** An acknowledgment off a calm link leaves the engine as it was but for the frames it frees. */
  lemma AcknowledgeExactly(x: Side, y: Side)
    requires Half(x, y) && Half(y, x) && y.engine.outbound != []
    ensures y.engine.history.queued != []
    ensures var a := Acknowledge(x.engine, y.engine.history.queued[0].req % 64).engine;
            && a == x.engine.(window := a.window, lastAckedTxSeq := a.lastAckedTxSeq, deadline := a.deadline,
                              history := x.engine.history.(acked := y.engine.history.queued[0].req))
            && Sent(a) == Sent(x.engine) && |a.window| <= |x.engine.window| <= x.engine.config.txWindowSize
  {
    hide Assemble, Acknowledge;
    AcknowledgeSender(x.engine, StreamOf(x), y.engine.history.queued[0].req);
  }

  /** The next frame in sequence, on an engine at rest. */
  lemma ReceiveNextCalms(x: Side, y: Side)
    requires Half(x, y) && Half(y, x) && x.engine.history.accepted < Sent(y.engine)
    requires !x.engine.failed && !x.engine.remoteBusy && !x.engine.localBusy
    requires x.engine.lastAckedRxSeq == x.engine.expectedTxSeq
    requires |x.engine.window| <= x.engine.config.txWindowSize
    requires forall tag <- y.engine.history.queued :: tag.Info? ==> x.engine.history.accepted + 1 < tag.serial + 64
    requires CalmQueue(x.engine.history.queued, y.engine.history.accepted, Sent(x.engine),
                       y.engine.history.acked, x.engine.history.accepted)
    ensures var s := StreamOf(y)[x.engine.history.accepted];
            var r := ReceiveInformation(x.engine, x.engine.history.accepted % 64, false, s.sar, Body(s));
            && r.error.None?
            && Answered(Counted(x.engine), r.engine, y.engine.history.accepted, y.engine.history.acked, 1)
  {
    hide Half, CalmQueue, Weight, OutputThenAcknowledge, Accept, SequenceAdd, Submittable, Ready, Stream, Body;
    Facts(x, y);
    AddOneWraps(x.engine.history.accepted);
    AcceptKeeps(x, y);
    var e, s := x.engine, StreamOf(y)[x.engine.history.accepted];
    var accepted := AcceptInformation(Counted(e), s.sar, Body(s)).engine;
    OutputAcknowledges(accepted, y.engine.history.accepted, y.engine.history.acked, e.history.accepted);
  }

  // The outcome of a delivery from `y` to `x`: no error, both sides calm, less work.
  predicate Relayed(x: Side, y: Side, r: Step, z: Side) {
    var x' := x.(engine := r.engine);
    && r.error.None? && Calm(x', z) && Calm(z, x')
    && Load(x') + Load(z) < Load(x) + Load(y)
  }

  lemma InformationRelays(x: Side, y: Side, a: Engine)
    requires Half(x, y) && Half(y, x) && Calm(x, y) && Calm(y, x) && y.engine.outbound != []
    requires y.engine.history.queued[0].Info? && y.engine.history.queued[0].serial < Sent(y.engine)
    requires a == Acknowledge(x.engine, y.engine.history.queued[0].req % 64).engine
    ensures y.engine.history.queued[0].serial < |StreamOf(y)|
    ensures var tag := y.engine.history.queued[0];
            var s := StreamOf(y)[tag.serial];
            Relayed(x, y, ReceiveInformation(a, tag.serial % 64, false, s.sar, Body(s)), Popped(y))
  {
    hide Half, CalmQueue, Weight, Acknowledge, ReceiveInformation, Submittable, Ready, Stream, Body;
    Facts(x, y);
    AcknowledgeExactly(x, y);
    PopAndAcknowledge(x, y);
    QueuePops(y.engine.history.queued, x.engine.history.accepted, Sent(y.engine), x.engine.history.acked,
              y.engine.history.accepted);
    ReceiveNextCalms(x.(engine := a), Popped(y));
  }

  lemma SupervisoryRelays(x: Side, y: Side, a: Engine)
    requires Half(x, y) && Half(y, x) && Calm(x, y) && Calm(y, x) && y.engine.outbound != []
    requires y.engine.history.queued[0].Super?
    requires a == Acknowledge(x.engine, y.engine.history.queued[0].req % 64).engine
    ensures var tag := y.engine.history.queued[0];
            Relayed(x, y, ReceiveSupervisory(a, |a.window| != |x.engine.window|, tag.function_, false, false,
                                             tag.req % 64), Popped(y))
  {
    hide Half, CalmQueue, Weight, Acknowledge, ProcessOutput;
    AcknowledgeExactly(x, y);
    QueuePops(y.engine.history.queued, x.engine.history.accepted, Sent(y.engine), x.engine.history.acked,
              y.engine.history.accepted);
    OutputCalms(a.(remoteBusy := false), y.engine.history.accepted, y.engine.history.acked);
  }

  /** Delivering the oldest frame of a calm link: no error, both sides stay calm, and work is used up. */
  lemma DeliverCalms(x: Side, y: Side)
    requires Half(x, y) && Half(y, x) && Calm(x, y) && Calm(y, x) && y.engine.outbound != []
    ensures Relayed(x, y, ReceiveFrame(x.engine, y.engine.outbound[0]), Popped(y))
  {
    hide Half, CalmQueue, Relayed, Acknowledge, ReceiveInformation, ReceiveSupervisory, ReceiveFrame;
    QueueAligned(x, y);
    PopAndAcknowledge(x, y);
    var tag := y.engine.history.queued[0];
    var a := Acknowledge(x.engine, tag.req % 64).engine;
    ReceiveDispatches(x.engine, tag, y.engine.outbound[0], StreamOf(y), Sent(y.engine));
    if tag.Info? { InformationRelays(x, y, a); } else { SupervisoryRelays(x, y, a); }
  }

  /** Submitting an SDU keeps both sides calm. */
  lemma SendCalms(x: Side, y: Side, sdu: seq<byte>)
    requires Half(x, y) && Half(y, x) && Calm(x, y) && Calm(y, x) && SendSdu(x.engine, sdu).error.None?
    ensures var x' := x.(engine := SendSdu(x.engine, sdu).engine, submitted := x.submitted + [sdu]);
            Calm(x', y) && Calm(y, x')
  {
    hide Half, CalmQueue, Weight, Segments, ProcessOutput;
    WindowFits(x, y);
    var e := QueueSegments(x.engine, Segments(sdu, x.engine.config.peerMps));
    OutputCalms(e, y.engine.history.accepted, y.engine.history.acked);
  }

  lemma WindowFits(x: Side, y: Side)
    requires Half(x, y)
    ensures ValidConfig(x.engine.config) && |x.engine.window| <= x.engine.config.txWindowSize
  {
  }

  // ---------------------------------------------------------------------------
  // Whole lossless runs
  // ---------------------------------------------------------------------------

  predicate Lossless(action: Action) { action.Send? || action.Deliver? || action.Pop? }

  lemma RaisedNothing(raised: seq<Error>)
    ensures Raised(raised, None) == raised
  {
  }

  lemma PopCalms(x: Side, y: Side)
    requires Calm(x, y) && Calm(y, x) && x.engine.received != []
    ensures var x' := x.(engine := PopReceived(x.engine), popped := x.popped + [x.engine.received[0]]);
            Calm(x', y) && Calm(y, x')
  {
    hide CalmQueue;
  }

  /** Every lossless action keeps a calm system calm; an effective delivery uses up work. */
  lemma ActCalms(s: System, action: Action)
    requires CalmSystem(s) && Lossless(action)
    ensures CalmSystem(Act(s, action))
    ensures action.Deliver? && s.right.engine.outbound != [] ==> Work(Act(s, action)) < Work(s)
  {
    hide Half, SendSdu, ReceiveFrame, Tick, SetReceiverBusy, Lose;
    var l, r := s.left, s.right;
    Facts(l, r);
    ActKeeps(s, action);
    hide Inv, Calm, Load;
    match action
    case Send(sdu) =>
      if SendSdu(l.engine, sdu).error.None? {
        SendCalms(l, r, sdu);
      } else {
        RefusalsChangeNothing(l.engine, sdu, [], 0);
      }
    case Deliver => if r.engine.outbound != [] { DeliverCalms(l, r); RaisedNothing(l.raised); }
    case Pop => if l.engine.received != [] { PopCalms(l, r); }
  }

  /** The same for either endpoint. */
  lemma ApplyCalms(s: System, move: Move)
    requires CalmSystem(s) && Lossless(move.action)
    ensures CalmSystem(Apply(s, move))
    ensures move.action.Deliver? && (if move.byLeft then s.right else s.left).engine.outbound != [] ==>
              Work(Apply(s, move)) < Work(s)
  {
    hide Half, Calm, Load, Act;
    if move.byLeft { ActCalms(s, move.action); } else { ActCalms(Swap(s), move.action); }
  }

  lemma {:induction false} RunStaysCalm(states: seq<System>, moves: seq<Move>, left: Config, right: Config, n: nat)
    requires Compatible(left, right) && Run(states, moves, left, right) && n < |states|
    requires forall m <- moves :: Lossless(m.action)
    ensures CalmSystem(states[n])
  {
    hide Apply, Calm, Half;
    if n == 0 {
      BeginCalm(left, right);
    } else {
      RunStaysCalm(states, moves, left, right, n - 1);
      ApplyCalms(states[n - 1], moves[n - 1]);
      assert states[n - 1 + 1] == Apply(states[n - 1], moves[n - 1]);
    }
  }

  lemma BeginCalm(left: Config, right: Config)
    requires Compatible(left, right)
    ensures CalmSystem(Begin(left, right))
  {
    BeginHolds(left, right);
  }

  /** With an empty link in both directions, everything sent was accepted and acknowledged. */
  lemma EmptyLinksMeanDone(x: Side, y: Side)
    requires Half(x, y) && Half(y, x) && Calm(x, y) && Calm(y, x)
    requires x.engine.outbound == [] && y.engine.outbound == []
    ensures x.engine.window == [] && x.engine.pending == []
    ensures y.popped + y.engine.received == x.submitted
  {
    assert |Range(y.engine.history.accepted, Sent(x.engine))| == 0;
    DeliveredIsPrefix(x, y);
  }

  /**
    * Quiescence: in a lossless run, whenever nothing is in transit everything has been delivered, and nothing failed.
    */
  lemma Quiescence(states: seq<System>, moves: seq<Move>, left: Config, right: Config, n: nat)
    requires Compatible(left, right) && Run(states, moves, left, right) && n < |states|
    requires forall m <- moves :: Lossless(m.action)
    ensures states[n].left.raised == [] && states[n].right.raised == []
    ensures states[n].left.engine.outbound == [] && states[n].right.engine.outbound == [] ==>
              && states[n].left.engine.window == [] && states[n].left.engine.pending == []
              && states[n].right.engine.window == [] && states[n].right.engine.pending == []
              && states[n].right.popped + states[n].right.engine.received == states[n].left.submitted
              && states[n].left.popped + states[n].left.engine.received == states[n].right.submitted
  {
    hide Apply, Half;
    RunStaysCalm(states, moves, left, right, n);
    if states[n].left.engine.outbound == [] && states[n].right.engine.outbound == [] {
      EmptyLinksMeanDone(states[n].left, states[n].right);
      EmptyLinksMeanDone(states[n].right, states[n].left);
    }
  }

  // A relay: every move delivers a frame that is there.
  ghost predicate Relay(states: seq<System>, moves: seq<Move>) {
    && |states| == |moves| + 1
    && forall i :: 0 <= i < |moves| ==>
         && ValidConfigs(states[i])
         && moves[i].action.Deliver?
         && (if moves[i].byLeft then states[i].right else states[i].left).engine.outbound != []
         && states[i + 1] == Apply(states[i], moves[i])
  }

  /**
    * Termination: from any calm system, no relay is longer than the work left, in whatever order frames are delivered.
    */
  lemma {:induction false} RelayTerminates(states: seq<System>, moves: seq<Move>, n: nat)
    requires Relay(states, moves) && CalmSystem(states[0]) && n < |states|
    ensures CalmSystem(states[n]) && n + Work(states[n]) <= Work(states[0])
  {
    hide Apply, Calm, Half, Load;
    if n > 0 {
      RelayTerminates(states, moves, n - 1);
      ApplyCalms(states[n - 1], moves[n - 1]);
      assert states[n - 1 + 1] == Apply(states[n - 1], moves[n - 1]);
    }
  }
}
