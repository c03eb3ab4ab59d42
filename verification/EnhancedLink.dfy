/**
  * One channel in the enhanced mode between two managers, with or without the check
  * sequence, beside any other channels and over links that lose PDUs: whatever state
  * its two ends are in, the channel behaves as two engines over a lossy link.
  */
module EnhancedLink {
  import opened Bytes
  import opened Signaling
  import opened Channels
  import opened Conversation
  import Lifecycle = ChannelLifecycle
  import Fcs
  import Ertm
  import E = ErtmLink
  import opened ErtmLift

  // One end: its manager, what was submitted to the channel, what was taken from it, and the errors its PDUs raised.
  datatype End = End(manager: Manager, submitted: seq<seq<byte>>, taken: seq<seq<byte>>, raised: seq<Error>)

  datatype System = System(left: End, right: End)

  datatype Action = Do(op: Lifecycle.Operation) | Receive | Lose(index: nat)

  datatype Move = Move(byLeft: bool, action: Action)

  function Swap(s: System): System { System(s.right, s.left) }

  // Any call, on any channel, with a PSM the wire carries; PDUs leave by `Receive` and `Lose`.
  predicate Allowed(a: Action) {
    a.Do? ==> !a.op.Process? && !a.op.TakeOutbound? && (a.op.ConnectTo? ==> a.op.target <= 0xFFFF)
  }

  // What the application has submitted to and taken from the channel `x` by this call.
  function Submitted(m: Manager, x: u16, op: Lifecycle.Operation): seq<seq<byte>>
    requires EnginesValid(m)
  {
    if op.SendSdu? && op.cid == x then
      var r := Send(m, x, op.sdu);
      if r.error.None? || r.error.value.Check? then [op.sdu] else []
    else []
  }

  function Taken(m: Manager, x: u16, op: Lifecycle.Operation): seq<seq<byte>> {
    if op.TakeReceived? && op.cid == x && x in m.channels && m.channels[x].received != [] then
      [m.channels[x].received[0]]
    else []
  }

  // An action of the left end. `Receive` takes the oldest PDU off the right's link, `Lose` loses any of the left's own.
  function Act(s: System, x: u16, a: Action): System
    requires EnginesValid(s.left.manager)
  {
    var l, r := s.left, s.right;
    match a
    case Do(op) =>
      System(l.(manager := Lifecycle.Perform(l.manager, op), submitted := l.submitted + Submitted(l.manager, x, op),
                taken := l.taken + Taken(l.manager, x, op)), r)
    case Receive =>
      if r.manager.outbound == [] then s
      else
        var pdu := r.manager.outbound[0];
        var o := ProcessPdu(l.manager, pdu);
        System(l.(manager := o.manager,
                  raised := l.raised + (if pdu.cid == x && o.error.Some? then [o.error.value] else [])),
               r.(manager := PollOutbound(r.manager)))
    case Lose(i) => System(l.(manager := l.manager.(outbound := E.Without(l.manager.outbound, i))), r)
  }

  // ---------------------------------------------------------------------------
  // The channel's frames among a manager's PDUs
  // ---------------------------------------------------------------------------

  function Strip(p: Pdu, fcs: bool): seq<byte> {
    if !fcs then p.payload
    else
      var r := Fcs.VerifyAndStripFcs(p.cid, p.payload);
      if r.Success? then r.value else p.payload
  }

  // The frames on their way to the channel `y`.
  function FramesTo(queue: seq<Pdu>, y: u16, fcs: bool): seq<seq<byte>> {
    if queue == [] then []
    else (if queue[0].cid == y then [Strip(queue[0], fcs)] else []) + FramesTo(queue[1..], y, fcs)
  }

  lemma {:induction false} FramesConcat(p: seq<Pdu>, q: seq<Pdu>, y: u16, fcs: bool)
    ensures FramesTo(p + q, y, fcs) == FramesTo(p, y, fcs) + FramesTo(q, y, fcs)
  {
    hide Strip;
    if p == [] {
      assert p + q == q;
    } else {
      assert (p + q)[0] == p[0] && (p + q)[1..] == p[1..] + q;
      FramesConcat(p[1..], q, y, fcs);
      var first := if p[0].cid == y then [Strip(p[0], fcs)] else [];
      JoinFrames(first, FramesTo(p[1..], y, fcs), FramesTo(q, y, fcs));
    }
  }

  lemma JoinFrames(a: seq<seq<byte>>, b: seq<seq<byte>>, c: seq<seq<byte>>)
    ensures a + (b + c) == a + b + c
  {
  }

  // Every frame on its way to `y` is one the peer will accept.
  predicate Readable(queue: seq<Pdu>, y: u16, fcs: bool) {
    fcs ==> forall i :: 0 <= i < |queue| && queue[i].cid == y ==> Fcs.VerifyAndStripFcs(y, queue[i].payload).Success?
  }

  // Nothing in these PDUs is for `y`.
  predicate NoneFor(queue: seq<Pdu>, y: u16) { forall i :: 0 <= i < |queue| ==> queue[i].cid != y }

  lemma {:induction false} NoFrames(queue: seq<Pdu>, y: u16, fcs: bool)
    requires NoneFor(queue, y)
    ensures FramesTo(queue, y, fcs) == []
  {
    if queue != [] {
      assert queue[0].cid != y;
      NoFrames(queue[1..], y, fcs);
    }
  }

  // An end of the channel: with an engine, or not configured yet and idle.
  predicate Ready(m: Manager, x: u16, y: u16, fcs: bool) {
    && x in m.channels && y >= FIRST_CID && EnginesValid(m) && Readable(m.outbound, y, fcs)
    && var c := m.channels[x];
    && (c.ertm.Some? ==> c.fcsEnabled == fcs)
    && (c.ertm.None? ==> c.state != Open && c.received == [] && FramesTo(m.outbound, y, fcs) == [])
  }

  // The end sends to `y`, or does not know its peer yet.
  predicate Aimed(m: Manager, x: u16, y: u16) { x in m.channels && m.channels[x].destinationCid in {0, y} }

  // ---------------------------------------------------------------------------
  // What leaves the channel alone
  // ---------------------------------------------------------------------------

  // From `m` to `n` the data of the channel stayed as it was, and nothing was queued for `y`.
  predicate Leaves(m: Manager, n: Manager, x: u16, y: u16) {
    && x in m.channels && x in n.channels && SameData(m.channels[x], n.channels[x]) && EnginesValid(n)
    && (n.channels[x].ertm.None? ==> n.channels[x].state != Open)
    && |m.outbound| <= |n.outbound| && n.outbound[..|m.outbound|] == m.outbound
       && NoneFor(n.outbound[|m.outbound|..], y)
  }

  lemma LeavesReady(m: Manager, n: Manager, x: u16, y: u16, fcs: bool)
    requires Ready(m, x, y, fcs) && Leaves(m, n, x, y)
    ensures Ready(n, x, y, fcs) && FramesTo(n.outbound, y, fcs) == FramesTo(m.outbound, y, fcs)
  {
    hide FramesTo, EnginesValid, Fcs.VerifyAndStripFcs;
    var more := n.outbound[|m.outbound|..];
    assert n.outbound == m.outbound + more;
    FramesConcat(m.outbound, more, y, fcs);
    NoFrames(more, y, fcs);
    assert FramesTo(m.outbound, y, fcs) + [] == FramesTo(m.outbound, y, fcs);
    forall i | 0 <= i < |n.outbound| && n.outbound[i].cid == y
      ensures fcs ==> Fcs.VerifyAndStripFcs(y, n.outbound[i].payload).Success?
    {
      if i < |m.outbound| {
        assert n.outbound[i] == m.outbound[i];
      } else {
        assert n.outbound[i] == more[i - |m.outbound|];
      }
    }
  }

  lemma LeavesTwice(m: Manager, n: Manager, o: Manager, x: u16, y: u16)
    requires Leaves(m, n, x, y) && Leaves(n, o, x, y)
    ensures Leaves(m, o, x, y)
  {
    hide EnginesValid;
    var k := |m.outbound|;
    assert o.outbound[..k] == o.outbound[..|n.outbound|][..k];
    assert o.outbound[k..] == n.outbound[k..] + o.outbound[|n.outbound|..];
  }

  lemma LeavesSame(m: Manager, x: u16, y: u16, fcs: bool)
    requires Ready(m, x, y, fcs)
    ensures Leaves(m, m, x, y)
  {
    hide EnginesValid, FramesTo;
    assert m.outbound[|m.outbound|..] == [];
  }

  // No other end of `m` sends to `y`.
  predicate Alone(m: Manager, x: u16, y: u16) { forall z <- m.channels :: z != x ==> m.channels[z].destinationCid != y }

  /** What another channel does, or says, leaves this one alone. */
  lemma LeavesElsewhere(m: Manager, n: Manager, z: u16, x: u16, y: u16, fcs: bool)
    requires Ready(m, x, y, fcs) && Murmurs(m, n, z) && z != x && EnginesValid(n) && Alone(m, x, y)
    ensures Leaves(m, n, x, y)
  {
    hide EnginesValid, FramesTo;
    forall i | |m.outbound| <= i < |n.outbound| ensures n.outbound[i].cid != y { assert From(n.outbound[i], m, z); }
  }

  /** So does signaling about this channel that gives it no engine. */
  lemma LeavesNod(m: Manager, n: Manager, z: u16, x: u16, y: u16, fcs: bool)
    requires Ready(m, x, y, fcs) && Nods(m, n, z) && EnginesValid(n)
             && (n.channels[x].ertm.None? ==> n.channels[x].state != Open)
    ensures Leaves(m, n, x, y)
  {
    hide EnginesValid, FramesTo, Minor;
    assert x == z || n.channels[x] == m.channels[x];
  }

  // The clock of the channel itself, on the manager `n`.
  function OwnTick(n: Manager, x: u16, ticks: u32): Outcome
    requires x in n.channels
  {
    if n.channels[x].ertm.Some? then AfterEngine(n, x, Ertm.Tick(n.channels[x].ertm.value, ticks)) else Done(n)
  }

  lemma OtherEngine(m: Manager, z: u16, ticks: u32, x: u16, y: u16, fcs: bool)
    requires Ready(m, x, y, fcs) && z in m.channels && z != x && m.channels[z].ertm.Some? && Alone(m, x, y) && Proper(m)
    ensures var n := AfterEngine(m, z, Ertm.Tick(m.channels[z].ertm.value, ticks)).manager;
            Leaves(m, n, x, y) && Alone(n, x, y) && Proper(n) && Aims(m, n, x)
  {
    hide AfterEngine, Ertm.Tick, Ertm.ValidConfig, FramesTo;
    var step := Ertm.Tick(m.channels[z].ertm.value, ticks);
    EngineMurmurs(m, z, step);
    Ertm.CallsKeepConfig(m.channels[z].ertm.value, [], false, ticks);
    EngineKeepsValid(m, z, step);
    var n := AfterEngine(m, z, step).manager;
    LeavesElsewhere(m, n, z, x, y, fcs);
  }

  // The channel aims where it did.
  predicate Aims(m: Manager, n: Manager, x: u16) {
    x in m.channels && x in n.channels && n.channels[x].destinationCid == m.channels[x].destinationCid
  }

  lemma EngineKeepsValid(m: Manager, z: u16, step: Ertm.Step)
    requires EnginesValid(m) && z in m.channels && Ertm.ValidConfig(step.engine.config)
    ensures EnginesValid(AfterEngine(m, z, step).manager)
  {
    hide QueueFrames, Ertm.ValidConfig;
    var c, e := m.channels[z], step.engine;
    var d := c.(ertm := Some(Drained(e)), received := c.received + e.received);
    var n := m.(channels := m.channels[z := c.(ertm := Some(e))]);
    Lifecycle.QueueFramesSame(n.(channels := n.channels[z := d]), c.destinationCid, c.fcsEnabled, e.outbound);
  }

  // The clocks of the channels after `x` do nothing to it.
  lemma {:induction false} TickAfter(m: Manager, cid: nat, ticks: u32, x: u16, y: u16, fcs: bool)
    requires Ready(m, x, y, fcs) && Alone(m, x, y) && Proper(m) && x < cid <= 0x1_0000
    ensures Leaves(m, Tick(m, cid, ticks).manager, x, y)
    decreases 0x1_0000 - cid
  {
    hide AfterEngine, Ertm.Tick, Leaves, Ertm.ValidConfig, Ready, Alone, Proper;
    LeavesSame(m, x, y, fcs);
    if cid <= 0xFFFF {
      if cid in m.channels && m.channels[cid].ertm.Some? {
        OtherEngine(m, cid, ticks, x, y, fcs);
        var r := AfterEngine(m, cid, Ertm.Tick(m.channels[cid].ertm.value, ticks));
        if r.error.None? {
          LeavesReady(m, r.manager, x, y, fcs);
          TickAfter(r.manager, cid + 1, ticks, x, y, fcs);
          LeavesTwice(m, r.manager, Tick(r.manager, cid + 1, ticks).manager, x, y);
        }
      } else {
        TickAfter(m, cid + 1, ticks, x, y, fcs);
      }
    }
  }

  /** The clocks in CID order: those before the channel, then its own unless one of those failed. */
  lemma {:induction false} TickBefore(m: Manager, cid: nat, ticks: u32, x: u16, y: u16, fcs: bool) returns (n: Manager)
    requires Ready(m, x, y, fcs) && Alone(m, x, y) && Proper(m) && cid <= x
    ensures Leaves(m, n, x, y) && Ready(n, x, y, fcs) && Alone(n, x, y) && Proper(n) && Aims(m, n, x)
    ensures var r := OwnTick(n, x, ticks);
            || Tick(m, cid, ticks).manager == n
            || Tick(m, cid, ticks) == if r.error.Some? then r else Tick(r.manager, x + 1, ticks)
    decreases 0x1_0000 - cid
  {
    hide AfterEngine, Ertm.Tick, Leaves, Ertm.ValidConfig, Alone, Proper, EnginesValid, FramesTo;
    n := m;
    LeavesSame(m, x, y, fcs);
    if cid < x {
      if cid in m.channels && m.channels[cid].ertm.Some? {
        OtherEngine(m, cid, ticks, x, y, fcs);
        var r := AfterEngine(m, cid, Ertm.Tick(m.channels[cid].ertm.value, ticks));
        LeavesReady(m, r.manager, x, y, fcs);
        n := r.manager;
        if r.error.None? {
          n := TickBefore(r.manager, cid + 1, ticks, x, y, fcs);
          LeavesTwice(m, r.manager, n, x, y);
        }
      } else {
        n := TickBefore(m, cid + 1, ticks, x, y, fcs);
      }
    }
  }

  // ---------------------------------------------------------------------------
  // The channel as an engine that keeps its frames and SDUs
  // ---------------------------------------------------------------------------

  // What both ends will have once they are configured.
  datatype Plan = Plan(fcs: bool, own: Ertm.Config, other: Ertm.Config)

  function Turned(p: Plan): Plan { Plan(p.fcs, p.other, p.own) }

  // The engine of a channel, or the one it will have.
  function EngineOf(m: Manager, x: u16, plan: Plan): Ertm.Engine
    requires x in m.channels
  {
    if m.channels[x].ertm.Some? then m.channels[x].ertm.value else Ertm.Fresh(plan.own)
  }

  // What the manager puts before the channel's engine.
  function FrontOf(m: Manager, x: u16, y: u16, fcs: bool, tags: seq<Ertm.Tag>): Front
    requires x in m.channels
  {
    Front(FramesTo(m.outbound, y, fcs), tags, m.channels[x].received)
  }

  // The engine `e` of the channel with what left it before, on the manager `m`.
  function Fronted(m: Manager, x: u16, y: u16, fcs: bool, e: Ertm.Engine, tags: seq<Ertm.Tag>): Ertm.Engine
    requires x in m.channels
  {
    Lift(e, FrontOf(m, x, y, fcs, tags))
  }

  predicate Tagged(m: Manager, y: u16, fcs: bool, tags: seq<Ertm.Tag>) { |tags| == |FramesTo(m.outbound, y, fcs)| }

  // The end stands for this endpoint of a link between two engines.
  predicate Stands(e: End, side: E.Side, x: u16, y: u16, plan: Plan, tags: seq<Ertm.Tag>) {
    && Ready(e.manager, x, y, plan.fcs) && Tagged(e.manager, y, plan.fcs, tags)
    && side.engine == Fronted(e.manager, x, y, plan.fcs, EngineOf(e.manager, x, plan), tags)
    && side.submitted == e.submitted && side.popped == e.taken
    && forall error <- e.raised :: Tolerable(error)
  }

  // What a PDU of the channel may raise: the engine's own limits, a frame too large to take the check sequence, or that
  // the channel is not open.
  predicate Tolerable(error: Error) {
    (error.Engine? && E.Tolerable(error.engine)) || error == Check(Fcs.FrameTooLarge) || error == NotOpen
  }

  lemma LeavesStands(e: End, n: Manager, side: E.Side, x: u16, y: u16, plan: Plan, tags: seq<Ertm.Tag>)
    requires Stands(e, side, x, y, plan, tags) && Leaves(e.manager, n, x, y)
    ensures Stands(e.(manager := n), side, x, y, plan, tags)
  {
    LeavesReady(e.manager, n, x, y, plan.fcs);
    hide Ready, FramesTo, EnginesValid, NoneFor;
  }

  /** The newest frames may always be lost. */
  lemma {:induction false} Truncated(t: E.System, n: nat)
    requires E.Inv(t) && n <= |t.left.engine.outbound| == |t.left.engine.history.queued|
    ensures E.Inv(t.(left := t.left.(engine := Cut(t.left.engine, n))))
    decreases |t.left.engine.outbound| - n
  {
    hide E.Half;
    var e := t.left.engine;
    if n == |e.outbound| {
      assert e.outbound[..n] == e.outbound && e.history.queued[..n] == e.history.queued;
    } else {
      var k := |e.outbound| - 1;
      assert e.outbound[k + 1..] == [] && e.history.queued[k + 1..] == [];
      assert E.Lose(e, k) == Cut(e, k);
      E.DropKeeps(t.left, t.right, k);
      Truncated(t.(left := t.left.(engine := Cut(e, k))), n);
      assert Cut(Cut(e, k), n) == Cut(e, n);
    }
  }

  function Cut(e: Ertm.Engine, n: nat): Ertm.Engine
    requires n <= |e.outbound| && n <= |e.history.queued|
  {
    e.(outbound := e.outbound[..n], history := e.history.(queued := e.history.queued[..n]))
  }

  // A frame as it is sent to `y`.
  function Wrapped(frame: seq<byte>, y: u16, fcs: bool): Result<seq<byte>, Fcs.FcsError> {
    if fcs then Fcs.AppendFcs(y, frame) else Success(frame)
  }

  lemma WrappedStrips(frame: seq<byte>, y: u16, fcs: bool)
    ensures Wrapped(frame, y, fcs).Success? ==>
              && Strip(Pdu(y, Wrapped(frame, y, fcs).value), fcs) == frame
              && (fcs ==> Fcs.VerifyAndStripFcs(y, Wrapped(frame, y, fcs).value) == Success(frame))
    ensures Wrapped(frame, y, fcs).Failure? ==> Wrapped(frame, y, fcs).error == Fcs.FrameTooLarge
  {
    Fcs.AppendThenVerify(y, frame);
    hide Fcs.Crc, Fcs.VerifyAndStripFcs;
  }

  /** The flush queues the frames in order, all of them or up to the first that is too large for the check sequence. */
  lemma {:induction false} FlushedFrames(m: Manager, y: u16, fcs: bool, frames: seq<seq<byte>>) returns (k: nat)
    requires Readable(m.outbound, y, fcs)
    ensures k <= |frames|
    ensures var r := QueueFrames(m, y, fcs, frames);
            && r.manager == m.(outbound := r.manager.outbound) && Readable(r.manager.outbound, y, fcs)
            && FramesTo(r.manager.outbound, y, fcs) == FramesTo(m.outbound, y, fcs) + frames[..k]
            && (r.error.None? ==> k == |frames|) && (r.error.Some? ==> r.error.value == Check(Fcs.FrameTooLarge))
    decreases |frames|
  {
    hide Fcs.AppendFcs, Fcs.VerifyAndStripFcs, FramesTo, Strip;
    k := 0;
    if frames == [] {
      assert FramesTo(m.outbound, y, fcs) + [] == FramesTo(m.outbound, y, fcs);
    } else {
      var payload := Wrapped(frames[0], y, fcs);
      WrappedStrips(frames[0], y, fcs);
      if payload.Success? {
        var pdu := Pdu(y, payload.value);
        var n := m.(outbound := m.outbound + [pdu]);
        OneFrame(m.outbound, pdu, y, fcs, frames[0]);
        var rest := FlushedFrames(n, y, fcs, frames[1..]);
        k := rest + 1;
        assert frames[..k] == [frames[0]] + frames[1..][..rest];
        JoinFrames(FramesTo(m.outbound, y, fcs), [frames[0]], frames[1..][..rest]);
      } else {
        assert FramesTo(m.outbound, y, fcs) + frames[..0] == FramesTo(m.outbound, y, fcs);
      }
    }
  }

  lemma OneFrame(queue: seq<Pdu>, pdu: Pdu, y: u16, fcs: bool, frame: seq<byte>)
    requires Readable(queue, y, fcs) && pdu.cid == y && Strip(pdu, fcs) == frame
    requires fcs ==> Fcs.VerifyAndStripFcs(y, pdu.payload).Success?
    ensures Readable(queue + [pdu], y, fcs) && FramesTo(queue + [pdu], y, fcs) == FramesTo(queue, y, fcs) + [frame]
  {
    hide Fcs.VerifyAndStripFcs, Strip;
    FramesConcat(queue, [pdu], y, fcs);
    assert [pdu][1..] == [] && [frame] + [] == [frame];
  }

  // The frames of a channel that does not know its peer go nowhere.
  lemma {:induction false} StrayFrames(m: Manager, to: u16, fcs: bool, frames: seq<seq<byte>>, y: u16)
    requires to != y && Readable(m.outbound, y, fcs)
    ensures var r := QueueFrames(m, to, fcs, frames);
            && r.manager == m.(outbound := r.manager.outbound) && Readable(r.manager.outbound, y, fcs)
            && FramesTo(r.manager.outbound, y, fcs) == FramesTo(m.outbound, y, fcs)
            && (r.error.Some? ==> r.error.value == Check(Fcs.FrameTooLarge))
    decreases |frames|
  {
    hide Fcs.AppendFcs, Fcs.VerifyAndStripFcs, FramesTo, Strip;
    if frames != [] {
      var payload := Wrapped(frames[0], to, fcs);
      WrappedStrips(frames[0], to, fcs);
      if payload.Success? {
        var pdu := Pdu(to, payload.value);
        FramesConcat(m.outbound, [pdu], y, fcs);
        NoFrames([pdu], y, fcs);
        assert FramesTo(m.outbound, y, fcs) + [] == FramesTo(m.outbound, y, fcs);
        StrayFrames(m.(outbound := m.outbound + [pdu]), to, fcs, frames[1..], y);
      }
    }
  }

  // ---------------------------------------------------------------------------
  // The channel's own steps
  // ---------------------------------------------------------------------------

  // Setting the channel's engine and received SDUs, and queueing its frames.
  lemma ReadyAfter(m: Manager, n: Manager, x: u16, y: u16, fcs: bool)
    requires Ready(m, x, y, fcs) && x in n.channels && n.channels == m.channels[x := n.channels[x]]
    requires var c, d := m.channels[x], n.channels[x];
             && d == c.(ertm := d.ertm, received := d.received) && c.ertm.Some? && d.ertm.Some?
                && Ertm.ValidConfig(d.ertm.value.config)
    requires Readable(n.outbound, y, fcs)
    ensures Ready(n, x, y, fcs)
  {
    hide Readable, Ertm.ValidConfig, FramesTo;
  }

  lemma FlushedWhole(m: Manager, n: Manager, x: u16, y: u16, plan: Plan, e: Ertm.Engine, tags: seq<Ertm.Tag>, k: nat)
    requires x in m.channels && Tagged(m, y, plan.fcs, tags) && |e.outbound| == |e.history.queued| && k <= |e.outbound|
    requires x in n.channels
             && n.channels[x]
                == m.channels[x].(ertm := Some(Drained(e)), received := m.channels[x].received + e.received)
    requires FramesTo(n.outbound, y, plan.fcs) == FramesTo(m.outbound, y, plan.fcs) + e.outbound[..k]
    ensures var size := |tags| + k;
            && Fronted(n, x, y, plan.fcs, EngineOf(n, x, plan), (tags + e.history.queued)[..size])
               == Cut(Fronted(m, x, y, plan.fcs, e, tags), size)
            && Tagged(n, y, plan.fcs, (tags + e.history.queued)[..size])
  {
    hide FramesTo;
    var frames, size := FramesTo(m.outbound, y, plan.fcs), |tags| + k;
    assert (frames + e.outbound)[..size] == frames + e.outbound[..k];
    var all := (tags + e.history.queued)[..size];
    assert all + [] == all;
    assert frames + e.outbound[..k] + [] == frames + e.outbound[..k];
    assert m.channels[x].received + e.received + [] == m.channels[x].received + e.received;
  }

  // The flush after a step without an error.
  lemma OwnFlush(m: Manager, x: u16, y: u16, plan: Plan, tags: seq<Ertm.Tag>, e: Ertm.Engine) returns (k: nat)
    requires Ready(m, x, y, plan.fcs) && Aimed(m, x, y) && m.channels[x].ertm.Some? && Tagged(m, y, plan.fcs, tags)
    requires Ertm.ValidConfig(e.config) && |e.outbound| == |e.history.queued|
    ensures var r, size := AfterEngine(m, x, Ertm.Step(e, None)), |tags| + k;
            && k <= |e.outbound| && Ready(r.manager, x, y, plan.fcs)
               && Tagged(r.manager, y, plan.fcs, (tags + e.history.queued)[..size])
            && Fronted(r.manager, x, y, plan.fcs, EngineOf(r.manager, x, plan), (tags + e.history.queued)[..size])
               == Cut(Fronted(m, x, y, plan.fcs, e, tags), size)
            && (r.error.None? || r.error == Some(Check(Fcs.FrameTooLarge)))
  {
    hide QueueFrames, FramesTo, Ertm.ValidConfig, Lift, Readable;
    var c, r := m.channels[x], AfterEngine(m, x, Ertm.Step(e, None));
    var d := c.(ertm := Some(Drained(e)), received := c.received + e.received);
    var n := m.(channels := m.channels[x := d]);
    assert m.channels[x := c.(ertm := Some(e))][x := d] == m.channels[x := d];
    if c.destinationCid == y {
      k := FlushedFrames(n, y, c.fcsEnabled, e.outbound);
    } else {
      k := 0;
      StrayFrames(n, c.destinationCid, c.fcsEnabled, e.outbound, y);
      assert FramesTo(m.outbound, y, plan.fcs) + e.outbound[..0] == FramesTo(m.outbound, y, plan.fcs);
    }
    ReadyAfter(m, r.manager, x, y, plan.fcs);
    FlushedWhole(m, r.manager, x, y, plan, e, tags, k);
  }

  lemma OwnError(m: Manager, x: u16, y: u16, plan: Plan, tags: seq<Ertm.Tag>, step: Ertm.Step)
    requires Ready(m, x, y, plan.fcs) && m.channels[x].ertm.Some? && Tagged(m, y, plan.fcs, tags)
    requires Ertm.ValidConfig(step.engine.config) && step.error.Some?
    ensures var r := AfterEngine(m, x, step);
            && Ready(r.manager, x, y, plan.fcs) && Tagged(r.manager, y, plan.fcs, tags)
               && r.error == Some(Engine(step.error.value))
            && Fronted(r.manager, x, y, plan.fcs, EngineOf(r.manager, x, plan), tags)
               == Fronted(m, x, y, plan.fcs, step.engine, tags)
  {
    hide FramesTo, Ertm.ValidConfig, Lift, Readable;
    ReadyAfter(m, AfterEngine(m, x, step).manager, x, y, plan.fcs);
  }

  lemma FrontedLengths(m: Manager, x: u16, y: u16, fcs: bool, e: Ertm.Engine, tags: seq<Ertm.Tag>)
    requires x in m.channels && Tagged(m, y, fcs, tags) && |e.outbound| == |e.history.queued|
    ensures var f := Fronted(m, x, y, fcs, e, tags);
            |f.outbound| == |f.history.queued| == |tags| + |e.outbound|
  {
    hide FramesTo;
  }

  lemma QueuesMatch(m: Manager, t: E.System, x: u16, y: u16, fcs: bool, tags: seq<Ertm.Tag>, engine: Ertm.Engine)
    requires E.Inv(t) && x in m.channels && Tagged(m, y, fcs, tags)
             && t.left.engine == Fronted(m, x, y, fcs, engine, tags)
    ensures |engine.outbound| == |engine.history.queued| && Ertm.ValidConfig(engine.config)
            && Ertm.ValidConfig(t.left.engine.config)
  {
    hide FramesTo;
  }

  // The link between two ends.
  predicate Linked(s: System, t: E.System, x: u16, y: u16, plan: Plan, lefts: seq<Ertm.Tag>, rights: seq<Ertm.Tag>) {
    E.Inv(t) && Stands(s.left, t.left, x, y, plan, lefts) && Stands(s.right, t.right, y, x, Turned(plan), rights)
  }

  /** An engine step on the channel, and the flush that follows, against the same step of the link's engine. */
  lemma OwnStep(m: Manager, t: E.System, x: u16, y: u16, plan: Plan, tags: seq<Ertm.Tag>, step: Ertm.Step)
    returns (u: E.System, more: seq<Ertm.Tag>)
    requires Ready(m, x, y, plan.fcs) && Aimed(m, x, y) && m.channels[x].ertm.Some? && Tagged(m, y, plan.fcs, tags)
    requires E.Inv(t) && t.left.engine == Fronted(m, x, y, plan.fcs, step.engine, tags)
    ensures var r := AfterEngine(m, x, step);
            && E.Inv(u) && u == t.(left := t.left.(engine := u.left.engine))
            && Ready(r.manager, x, y, plan.fcs) && Tagged(r.manager, y, plan.fcs, more)
            && u.left.engine == Fronted(r.manager, x, y, plan.fcs, EngineOf(r.manager, x, plan), more)
            && (step.error.Some? ==> r.error == Some(Engine(step.error.value)))
            && (step.error.None? ==> r.error.None? || r.error == Some(Check(Fcs.FrameTooLarge)))
  {
    hide E.Inv, AfterEngine, Readable, Ertm.ValidConfig, EnginesValid, FramesTo, Fronted;
    QueuesMatch(m, t, x, y, plan.fcs, tags, step.engine);
    if step.error.Some? {
      u, more := t, tags;
      OwnError(m, x, y, plan, tags, step);
    } else {
      var k := OwnFlush(m, x, y, plan, tags, step.engine);
      FrontedLengths(m, x, y, plan.fcs, step.engine, tags);
      hide EngineOf, Tagged;
      more := (tags + step.engine.history.queued)[..|tags| + k];
      Truncated(t, |tags| + k);
      u := t.(left := t.left.(engine := Cut(t.left.engine, |tags| + k)));
    }
  }

  // After an engine step on the left's channel.
  lemma Stepped(s: System, t: E.System, x: u16, y: u16, plan: Plan, lefts: seq<Ertm.Tag>, rights: seq<Ertm.Tag>,
                step: Ertm.Step, e: End)
    returns (u: E.System, more: seq<Ertm.Tag>)
    requires Ready(s.left.manager, x, y, plan.fcs) && Aimed(s.left.manager, x, y)
             && s.left.manager.channels[x].ertm.Some?
    requires Tagged(s.left.manager, y, plan.fcs, lefts) && E.Inv(t)
    requires t.left.engine == Fronted(s.left.manager, x, y, plan.fcs, step.engine, lefts)
    requires Stands(s.right, t.right, y, x, Turned(plan), rights)
    requires e.manager == AfterEngine(s.left.manager, x, step).manager && e.submitted == t.left.submitted
             && e.taken == t.left.popped
    requires forall error <- e.raised :: Tolerable(error)
    ensures Linked(System(e, s.right), u, x, y, plan, more, rights)
  {
    hide E.Inv, AfterEngine, FramesTo, Ready, Fronted, EngineOf, Tagged;
    u, more := OwnStep(s.left.manager, t, x, y, plan, lefts, step);
  }

  // Which error the channel's step ends with.
  lemma OwnOutcome(m: Manager, next: E.System, x: u16, y: u16, plan: Plan, tags: seq<Ertm.Tag>, step: Ertm.Step)
    requires Ready(m, x, y, plan.fcs) && Aimed(m, x, y) && m.channels[x].ertm.Some? && Tagged(m, y, plan.fcs, tags)
    requires E.Inv(next) && next.left.engine == Fronted(m, x, y, plan.fcs, step.engine, tags)
    ensures var r := AfterEngine(m, x, step);
            && (step.error.Some? ==> r.error == Some(Engine(step.error.value)))
            && (step.error.None? ==> r.error.None? || r.error == Some(Check(Fcs.FrameTooLarge)))
  {
    hide E.Inv, AfterEngine, FramesTo, Fronted, Ready, EngineOf, Tagged;
    var u, more := OwnStep(m, next, x, y, plan, tags, step);
  }

  lemma StandsFor(e: End, t: E.System, x: u16, y: u16, plan: Plan, tags: seq<Ertm.Tag>)
    requires E.Inv(t) && Stands(e, t.left, x, y, plan, tags)
    ensures x in e.manager.channels && Ertm.ValidConfig(EngineOf(e.manager, x, plan).config)
            && Ertm.ValidConfig(t.left.engine.config)
    ensures t.left.engine == Fronted(e.manager, x, y, plan.fcs, EngineOf(e.manager, x, plan), tags)
  {
    hide FramesTo, E.Inv, Fronted, EnginesValid, Readable;
    QueuesMatch(e.manager, t, x, y, plan.fcs, tags, EngineOf(e.manager, x, plan));
  }

  lemma EngineSends(e: End, t: E.System, x: u16, y: u16, plan: Plan, tags: seq<Ertm.Tag>, sdu: seq<byte>)
    requires E.Inv(t) && Stands(e, t.left, x, y, plan, tags)
    ensures Ertm.ValidConfig(t.left.engine.config) && Ertm.ValidConfig(EngineOf(e.manager, x, plan).config)
    ensures var next, step := E.Act(t, E.Send(sdu)), Ertm.SendSdu(EngineOf(e.manager, x, plan), sdu);
            && E.Inv(next) && next.right == t.right && next.left.popped == t.left.popped
            && next.left.engine == Fronted(e.manager, x, y, plan.fcs, step.engine, tags)
            && next.left.submitted == t.left.submitted + (if step.error.None? then [sdu] else [])
  {
    hide E.Half, Stands, FramesTo, Ertm.SendSdu, Ertm.ValidConfig, EngineOf;
    StandsFor(e, t, x, y, plan, tags);
    E.ActKeeps(t, E.Send(sdu));
    SendLifts(EngineOf(e.manager, x, plan), FrontOf(e.manager, x, y, plan.fcs, tags), sdu);
  }

  lemma ManagerSends(s: System, x: u16, sdu: seq<byte>)
    requires EnginesValid(s.left.manager) && x in s.left.manager.channels
    requires s.left.manager.channels[x].ertm.Some? && s.left.manager.channels[x].state == Open
    requires Ertm.ValidConfig(s.left.manager.channels[x].ertm.value.config)
    ensures var m, after := s.left.manager, Act(s, x, Do(Lifecycle.SendSdu(x, sdu)));
            var r := AfterEngine(m, x, Ertm.SendSdu(m.channels[x].ertm.value, sdu));
            && after.right == s.right && after.left.manager == r.manager
            && after.left.taken == s.left.taken && after.left.raised == s.left.raised
            && after.left.submitted == s.left.submitted + (if r.error.None? || r.error.value.Check? then [sdu] else [])
  {
    hide AfterEngine, Ertm.SendSdu, Ertm.ValidConfig;
    assert s.left.taken + [] == s.left.taken;
  }

  lemma SendRefused(s: System, x: u16, sdu: seq<byte>)
    requires EnginesValid(s.left.manager) && x in s.left.manager.channels && s.left.manager.channels[x].state != Open
    ensures Act(s, x, Do(Lifecycle.SendSdu(x, sdu))) == s
  {
    hide Ertm.ValidConfig;
    assert s.left.taken + [] == s.left.taken && s.left.submitted + [] == s.left.submitted;
  }

  lemma SendLinked(s: System, t: E.System, x: u16, y: u16, plan: Plan, lefts: seq<Ertm.Tag>, rights: seq<Ertm.Tag>,
                   sdu: seq<byte>)
    returns (u: E.System, more: seq<Ertm.Tag>)
    requires Linked(s, t, x, y, plan, lefts, rights) && Aimed(s.left.manager, x, y)
    ensures Linked(Act(s, x, Do(Lifecycle.SendSdu(x, sdu))), u, x, y, plan, more, rights)
  {
    hide E.Inv, E.Act, Act, Ertm.SendSdu, FramesTo, AfterEngine, Ertm.ValidConfig, Fronted, Readable, Tagged;
    var m := s.left.manager;
    if m.channels[x].state != Open {
      SendRefused(s, x, sdu);
      u, more := t, lefts;
    } else {
      EngineSends(s.left, t, x, y, plan, lefts, sdu);
      ManagerSends(s, x, sdu);
      hide Ready;
      var step, next := Ertm.SendSdu(EngineOf(m, x, plan), sdu), E.Act(t, E.Send(sdu));
      OwnOutcome(m, next, x, y, plan, lefts, step);
      u, more := Stepped(s, next, x, y, plan, lefts, rights, step, Act(s, x, Do(Lifecycle.SendSdu(x, sdu))).left);
    }
  }

  lemma EngineBusy(e: End, t: E.System, x: u16, y: u16, plan: Plan, tags: seq<Ertm.Tag>, busy: bool)
    requires E.Inv(t) && Stands(e, t.left, x, y, plan, tags)
    ensures Ertm.ValidConfig(t.left.engine.config)
    ensures var next, step := E.Act(t, E.SetBusy(busy)), Ertm.SetReceiverBusy(EngineOf(e.manager, x, plan), busy);
            && E.Inv(next) && next.right == t.right && next.left == t.left.(engine := next.left.engine)
            && next.left.engine == Fronted(e.manager, x, y, plan.fcs, step.engine, tags)
  {
    hide E.Half, Stands, FramesTo, Ertm.SetReceiverBusy, Ertm.ValidConfig, EngineOf;
    StandsFor(e, t, x, y, plan, tags);
    E.ActKeeps(t, E.SetBusy(busy));
    BusyLifts(EngineOf(e.manager, x, plan), FrontOf(e.manager, x, y, plan.fcs, tags), busy);
  }

  lemma ManagerBusy(s: System, x: u16, busy: bool)
    requires EnginesValid(s.left.manager) && x in s.left.manager.channels
    ensures var m, after := s.left.manager, Act(s, x, Do(Lifecycle.SetBusy(x, busy)));
            after == if m.channels[x].ertm.None? then s
                     else
                       var r := AfterEngine(m, x, Ertm.SetReceiverBusy(m.channels[x].ertm.value, busy));
                       System(s.left.(manager := r.manager), s.right)
  {
    hide AfterEngine, Ertm.SetReceiverBusy, EnginesValid;
    assert s.left.taken + [] == s.left.taken && s.left.submitted + [] == s.left.submitted;
  }

  lemma BusyLinked(s: System, t: E.System, x: u16, y: u16, plan: Plan, lefts: seq<Ertm.Tag>, rights: seq<Ertm.Tag>,
                   busy: bool)
    returns (u: E.System, more: seq<Ertm.Tag>)
    requires Linked(s, t, x, y, plan, lefts, rights) && Aimed(s.left.manager, x, y)
    ensures Linked(Act(s, x, Do(Lifecycle.SetBusy(x, busy))), u, x, y, plan, more, rights)
  {
    hide E.Inv, E.Act, Act, Ertm.SetReceiverBusy, FramesTo, AfterEngine, Ertm.ValidConfig, Fronted, Readable, Tagged;
    var m := s.left.manager;
    ManagerBusy(s, x, busy);
    if m.channels[x].ertm.None? {
      u, more := t, lefts;
    } else {
      EngineBusy(s.left, t, x, y, plan, lefts, busy);
      hide Ready;
      var step, next := Ertm.SetReceiverBusy(EngineOf(m, x, plan), busy), E.Act(t, E.SetBusy(busy));
      u, more := Stepped(s, next, x, y, plan, lefts, rights, step, Act(s, x, Do(Lifecycle.SetBusy(x, busy))).left);
    }
  }

  lemma EngineTicks(e: End, t: E.System, x: u16, y: u16, plan: Plan, tags: seq<Ertm.Tag>, ticks: u32)
    requires E.Inv(t) && Stands(e, t.left, x, y, plan, tags)
    ensures Ertm.ValidConfig(t.left.engine.config)
    ensures var next, step := E.Act(t, E.Elapse(ticks)), Ertm.Tick(EngineOf(e.manager, x, plan), ticks);
            && E.Inv(next) && next.right == t.right
               && next.left == t.left.(engine := next.left.engine, raised := next.left.raised)
            && next.left.engine == Fronted(e.manager, x, y, plan.fcs, step.engine, tags)
  {
    hide E.Half, Stands, FramesTo, Ertm.Tick, Ertm.ValidConfig, EngineOf;
    StandsFor(e, t, x, y, plan, tags);
    E.ActKeeps(t, E.Elapse(ticks));
    TickLifts(EngineOf(e.manager, x, plan), FrontOf(e.manager, x, y, plan.fcs, tags), ticks);
  }

  // The channel's own turn of the clock.
  lemma OwnTickLinked(s: System, t: E.System, x: u16, y: u16, plan: Plan, lefts: seq<Ertm.Tag>, rights: seq<Ertm.Tag>,
                      ticks: u32)
    returns (u: E.System, more: seq<Ertm.Tag>)
    requires Linked(s, t, x, y, plan, lefts, rights) && Aimed(s.left.manager, x, y)
    ensures Linked(System(s.left.(manager := OwnTick(s.left.manager, x, ticks).manager), s.right), u, x, y, plan, more,
                   rights)
  {
    hide E.Inv, E.Act, Ertm.Tick, FramesTo, AfterEngine, Ertm.ValidConfig, Fronted, Readable, Tagged;
    var m := s.left.manager;
    u, more := t, lefts;
    if m.channels[x].ertm.Some? {
      EngineTicks(s.left, t, x, y, plan, lefts, ticks);
      hide Ready;
      var step, next := Ertm.Tick(EngineOf(m, x, plan), ticks), E.Act(t, E.Elapse(ticks));
      u, more := Stepped(s, next, x, y, plan, lefts, rights, step, s.left.(manager := AfterEngine(m, x, step).manager));
    }
  }

  /** Whatever leaves an end alone. */
  lemma LeftLeaves(s: System, n: Manager, t: E.System, x: u16, y: u16, plan: Plan, lefts: seq<Ertm.Tag>,
                   rights: seq<Ertm.Tag>)
    requires Linked(s, t, x, y, plan, lefts, rights) && Leaves(s.left.manager, n, x, y)
    ensures Linked(System(s.left.(manager := n), s.right), t, x, y, plan, lefts, rights)
  {
    hide E.Inv, Stands, Leaves;
    LeavesStands(s.left, n, t.left, x, y, plan, lefts);
  }

  /** The manager's clock: every enhanced channel's, in order, until one fails. */
  lemma ElapseLinked(s: System, t: E.System, x: u16, y: u16, plan: Plan, lefts: seq<Ertm.Tag>, rights: seq<Ertm.Tag>,
                     ticks: u32)
    returns (u: E.System, more: seq<Ertm.Tag>)
    requires Linked(s, t, x, y, plan, lefts, rights) && Aimed(s.left.manager, x, y)
    requires Alone(s.left.manager, x, y) && Proper(s.left.manager)
    ensures Linked(System(s.left.(manager := Tick(s.left.manager, 0, ticks).manager), s.right), u, x, y, plan, more,
                   rights)
  {
    hide E.Inv, FramesTo, OwnTick, Tick, Leaves, EnginesValid, Readable, Alone, Proper, Fronted, Tagged;
    var n := TickBefore(s.left.manager, 0, ticks, x, y, plan.fcs);
    LeftLeaves(s, n, t, x, y, plan, lefts, rights);
    var before := System(s.left.(manager := n), s.right);
    u, more := t, lefts;
    if Tick(s.left.manager, 0, ticks).manager != n {
      u, more := OwnTickLinked(before, t, x, y, plan, lefts, rights, ticks);
      var r := OwnTick(n, x, ticks);
      OwnTickKeeps(n, x, y, ticks);
      if r.error.None? {
        var after := System(s.left.(manager := r.manager), s.right);
        TickAfter(r.manager, x as nat + 1, ticks, x, y, plan.fcs);
        LeftLeaves(after, Tick(r.manager, x as nat + 1, ticks).manager, u, x, y, plan, more, rights);
      }
    }
  }

  lemma OwnTickKeeps(n: Manager, x: u16, y: u16, ticks: u32)
    requires x in n.channels && Alone(n, x, y) && Proper(n)
    ensures Alone(OwnTick(n, x, ticks).manager, x, y) && Proper(OwnTick(n, x, ticks).manager)
  {
    hide AfterEngine, Ertm.Tick;
    if n.channels[x].ertm.Some? { EngineMurmurs(n, x, Ertm.Tick(n.channels[x].ertm.value, ticks)); }
  }

  lemma TakeStands(e: End, t: E.System, x: u16, y: u16, plan: Plan, tags: seq<Ertm.Tag>)
    requires E.Inv(t) && Stands(e, t.left, x, y, plan, tags) && e.manager.channels[x].received != []
    ensures Ertm.ValidConfig(t.left.engine.config)
    ensures var next := E.Act(t, E.Pop);
            && E.Inv(next) && next.right == t.right
            && Stands(e.(manager := PopReceived(e.manager, x), taken := e.taken + [e.manager.channels[x].received[0]]),
                      next.left, x, y, plan, tags)
  {
    hide E.Half, FramesTo, Readable, Ertm.ValidConfig;
    StandsFor(e, t, x, y, plan, tags);
    E.ActKeeps(t, E.Pop);
    var c, n := e.manager.channels[x], PopReceived(e.manager, x);
    var engine := c.ertm.value;
    ReadyAfter(e.manager, n, x, y, plan.fcs);
    assert (c.received + engine.received)[1..] == c.received[1..] + engine.received;
    assert (c.received + engine.received)[0] == c.received[0];
  }

  lemma TakeLinked(s: System, t: E.System, x: u16, y: u16, plan: Plan, lefts: seq<Ertm.Tag>, rights: seq<Ertm.Tag>)
    returns (u: E.System)
    requires Linked(s, t, x, y, plan, lefts, rights)
    ensures Linked(Act(s, x, Do(Lifecycle.TakeReceived(x))), u, x, y, plan, lefts, rights)
  {
    hide E.Inv, E.Act, FramesTo, Readable, Ertm.ValidConfig, Fronted, Tagged;
    u := t;
    assert s.left.submitted + [] == s.left.submitted;
    if s.left.manager.channels[x].received != [] {
      TakeStands(s.left, t, x, y, plan, lefts);
      u := E.Act(t, E.Pop);
    } else {
      assert s.left.taken + [] == s.left.taken;
    }
  }

  lemma FramesWithout(queue: seq<Pdu>, i: nat, y: u16, fcs: bool)
    requires i < |queue|
    ensures var frames, j := FramesTo(queue, y, fcs), |FramesTo(queue[..i], y, fcs)|;
            && (queue[i].cid == y ==> j < |frames|)
            && FramesTo(E.Without(queue, i), y, fcs) == if queue[i].cid == y then E.Without(frames, j) else frames
  {
    hide FramesTo, Strip;
    var a, b, c := queue[..i], [queue[i]], queue[i + 1..];
    assert queue == a + b + c;
    FramesConcat(a + b, c, y, fcs);
    FramesConcat(a, b, y, fcs);
    FramesConcat(a, c, y, fcs);
    OnlyFrame(queue[i], y, fcs);
    var f, g := FramesTo(a, y, fcs), FramesTo(c, y, fcs);
    if queue[i].cid == y {
      var all := f + [Strip(queue[i], fcs)] + g;
      assert all[..|f|] == f && all[|f| + 1..] == g;
    } else {
      assert f + [] == f;
    }
  }

  lemma OnlyFrame(p: Pdu, y: u16, fcs: bool)
    ensures FramesTo([p], y, fcs) == if p.cid == y then [Strip(p, fcs)] else []
  {
    hide Strip;
    assert [p][1..] == [];
  }

  lemma WithoutFirst<T>(s: seq<T>, rest: seq<T>, j: nat)
    requires j < |s|
    ensures E.Without(s + rest, j) == E.Without(s, j) + rest
  {
  }

  lemma ReadableWithout(queue: seq<Pdu>, i: nat, y: u16, fcs: bool)
    requires Readable(queue, y, fcs)
    ensures Readable(E.Without(queue, i), y, fcs)
  {
    hide Fcs.VerifyAndStripFcs;
  }

  /** Losing a PDU of the channel loses its frame; losing any other loses nothing of the channel. */
  lemma LoseStands(e: End, t: E.System, x: u16, y: u16, plan: Plan, tags: seq<Ertm.Tag>, i: nat)
    returns (u: E.System, fewer: seq<Ertm.Tag>)
    requires E.Inv(t) && Stands(e, t.left, x, y, plan, tags)
    ensures E.Inv(u) && u.right == t.right
    ensures Stands(e.(manager := e.manager.(outbound := E.Without(e.manager.outbound, i))), u.left, x, y, plan, fewer)
  {
    hide E.Half, FramesTo, Readable, Ertm.ValidConfig;
    var m, fcs := e.manager, plan.fcs;
    ReadableWithout(m.outbound, i, y, fcs);
    u, fewer := t, tags;
    if i < |m.outbound| {
      FramesWithout(m.outbound, i, y, fcs);
      if m.outbound[i].cid == y {
        var j, engine := |FramesTo(m.outbound[..i], y, fcs)|, EngineOf(m, x, plan);
        StandsFor(e, t, x, y, plan, tags);
        E.ActKeeps(t, E.Drop(j));
        u, fewer := E.Act(t, E.Drop(j)), E.Without(tags, j);
        WithoutFirst(FramesTo(m.outbound, y, fcs), engine.outbound, j);
        WithoutFirst(tags, engine.history.queued, j);
      }
    }
  }

  lemma LoseLinked(s: System, t: E.System, x: u16, y: u16, plan: Plan, lefts: seq<Ertm.Tag>, rights: seq<Ertm.Tag>,
                   i: nat)
    returns (u: E.System, fewer: seq<Ertm.Tag>)
    requires Linked(s, t, x, y, plan, lefts, rights)
    ensures Linked(System(s.left.(manager := s.left.manager.(outbound := E.Without(s.left.manager.outbound, i))),
                          s.right), u, x, y, plan, fewer, rights)
  {
    hide E.Inv, Stands;
    u, fewer := LoseStands(s.left, t, x, y, plan, lefts, i);
  }

  lemma LinkedBack(s: System, t: E.System, x: u16, y: u16, plan: Plan, lefts: seq<Ertm.Tag>, rights: seq<Ertm.Tag>)
    requires Linked(s, t, x, y, plan, lefts, rights)
    ensures Linked(Swap(s), E.Swap(t), y, x, Turned(plan), rights, lefts)
  {
    hide E.Half, Stands;
  }

  // The oldest PDU of the right leaves its queue and is lost.
  lemma PolledLinked(s: System, t: E.System, x: u16, y: u16, plan: Plan, lefts: seq<Ertm.Tag>, rights: seq<Ertm.Tag>)
    returns (u: E.System, fewer: seq<Ertm.Tag>)
    requires Linked(s, t, x, y, plan, lefts, rights) && s.right.manager.outbound != []
    ensures Linked(s.(right := s.right.(manager := PollOutbound(s.right.manager))), u, x, y, plan, lefts, fewer)
  {
    hide Linked;
    var m := s.right.manager;
    LinkedBack(s, t, x, y, plan, lefts, rights);
    u, fewer := LoseLinked(Swap(s), E.Swap(t), y, x, Turned(plan), rights, lefts, 0);
    assert [] + m.outbound[1..] == m.outbound[1..];
    LinkedBack(System(s.right.(manager := PollOutbound(m)), s.left), u, y, x, Turned(plan), fewer, lefts);
    u := E.Swap(u);
  }

  lemma FirstFrame(queue: seq<Pdu>, x: u16, fcs: bool)
    requires queue != [] && Readable(queue, x, fcs)
    ensures FramesTo(queue, x, fcs) == (if queue[0].cid == x then [Strip(queue[0], fcs)] else [])
            + FramesTo(queue[1..], x, fcs)
    ensures Readable(queue[1..], x, fcs)
    ensures queue[0].cid == x && fcs ==> Fcs.VerifyAndStripFcs(x, queue[0].payload) == Success(Strip(queue[0], fcs))
  {
    hide Fcs.VerifyAndStripFcs;
  }

  // The peer's queue without the frame that arrived.
  lemma PolledStands(e: End, side: E.Side, y: u16, x: u16, plan: Plan, tags: seq<Ertm.Tag>)
    requires Stands(e, side, y, x, plan, tags) && e.manager.outbound != [] && e.manager.outbound[0].cid == x
    ensures var p, pdu := e.(manager := PollOutbound(e.manager)), e.manager.outbound[0];
            && tags != [] && side.engine.outbound != [] && side.engine.outbound[0] == Strip(pdu, plan.fcs)
            && (plan.fcs ==> Fcs.VerifyAndStripFcs(x, pdu.payload) == Success(Strip(pdu, plan.fcs)))
            && Stands(p, side.(engine := Ertm.PollOutbound(side.engine)), y, x, plan, tags[1..])
  {
    hide FramesTo, Strip, Ertm.ValidConfig, Fcs.VerifyAndStripFcs, Readable;
    var m, fcs := e.manager, plan.fcs;
    FirstFrame(m.outbound, x, fcs);
    var engine, rest, first := EngineOf(m, y, plan), FramesTo(m.outbound[1..], x, fcs), Strip(m.outbound[0], fcs);
    assert ([first] + rest + engine.outbound)[1..] == rest + engine.outbound;
    assert (tags + engine.history.queued)[1..] == tags[1..] + engine.history.queued;
  }

  lemma EngineReceives(e: End, t: E.System, x: u16, y: u16, plan: Plan, tags: seq<Ertm.Tag>)
    requires E.Inv(t) && Stands(e, t.left, x, y, plan, tags) && t.right.engine.outbound != []
    ensures Ertm.ValidConfig(t.left.engine.config)
    ensures var next, step := E.Act(t, E.Deliver),
                              Ertm.ReceiveFrame(EngineOf(e.manager, x, plan), t.right.engine.outbound[0]);
            && E.Inv(next) && next.right == t.right.(engine := Ertm.PollOutbound(t.right.engine))
            && next.left.submitted == t.left.submitted && next.left.popped == t.left.popped
            && next.left.engine == Fronted(e.manager, x, y, plan.fcs, step.engine, tags)
            && (step.error.Some? ==> E.Tolerable(step.error.value))
  {
    hide E.Half, Stands, FramesTo, Ertm.ReceiveFrame, Ertm.ValidConfig, Ertm.PollOutbound, EngineOf;
    StandsFor(e, t, x, y, plan, tags);
    E.ActKeeps(t, E.Deliver);
    var frame := t.right.engine.outbound[0];
    ReceiveLifts(EngineOf(e.manager, x, plan), FrontOf(e.manager, x, y, plan.fcs, tags), frame);
    var next, step := E.Act(t, E.Deliver), Ertm.ReceiveFrame(EngineOf(e.manager, x, plan), frame);
    if step.error.Some? {
      assert next.left.raised == t.left.raised + [step.error.value];
      RaisedIsTolerable(next, t.left.raised, step.error.value);
    }
  }

  lemma RaisedIsTolerable(t: E.System, before: seq<Ertm.Error>, error: Ertm.Error)
    requires E.Inv(t) && t.left.raised == before + [error]
    ensures E.Tolerable(error)
  {
    assert error in t.left.raised;
  }

  lemma ManagerReceives(m: Manager, pdu: Pdu, x: u16, fcs: bool)
    requires x in m.channels && pdu.cid == x >= FIRST_CID && m.channels[x].state == Open && m.channels[x].ertm.Some?
             && m.channels[x].fcsEnabled == fcs
    requires fcs ==> Fcs.VerifyAndStripFcs(x, pdu.payload) == Success(Strip(pdu, true))
    ensures ProcessPdu(m, pdu) == AfterEngine(m, x, Ertm.ReceiveFrame(m.channels[x].ertm.value, Strip(pdu, fcs)))
  {
    hide AfterEngine, Ertm.ReceiveFrame, Fcs.VerifyAndStripFcs;
  }

  lemma ReceiveOpen(s: System, t: E.System, x: u16, y: u16, plan: Plan, lefts: seq<Ertm.Tag>, rights: seq<Ertm.Tag>)
    returns (u: E.System, more: seq<Ertm.Tag>)
    requires Linked(s, t, x, y, plan, lefts, rights) && Aimed(s.left.manager, x, y)
             && s.left.manager.channels[x].state == Open
    requires s.right.manager.outbound != [] && s.right.manager.outbound[0].cid == x
    ensures rights != [] && Linked(Act(s, x, Receive), u, x, y, plan, more, rights[1..])
  {
    hide E.Inv, E.Act, AfterEngine, ProcessPdu, Ertm.ReceiveFrame, FramesTo, Readable, Ertm.ValidConfig, Fronted, Strip,
         Ertm.PollOutbound, Fcs.VerifyAndStripFcs, Tagged;
    var m, pdu := s.left.manager, s.right.manager.outbound[0];
    PolledStands(s.right, t.right, y, x, Turned(plan), rights);
    EngineReceives(s.left, t, x, y, plan, lefts);
    ManagerReceives(m, pdu, x, plan.fcs);
    hide Ready, EnginesValid;
    var step, next := Ertm.ReceiveFrame(EngineOf(m, x, plan), Strip(pdu, plan.fcs)), E.Act(t, E.Deliver);
    OwnOutcome(m, next, x, y, plan, lefts, step);
    var after := Act(s, x, Receive);
    u, more := Stepped(System(s.left, after.right), next, x, y, plan, lefts, rights[1..], step, after.left);
  }

  lemma ReceiveClosed(s: System, t: E.System, x: u16, y: u16, plan: Plan, lefts: seq<Ertm.Tag>, rights: seq<Ertm.Tag>)
    returns (u: E.System, fewer: seq<Ertm.Tag>)
    requires Linked(s, t, x, y, plan, lefts, rights) && s.left.manager.channels[x].state != Open && x >= FIRST_CID
    requires s.right.manager.outbound != [] && s.right.manager.outbound[0].cid == x
    ensures Linked(Act(s, x, Receive), u, x, y, plan, lefts, fewer)
  {
    hide E.Inv, FramesTo, Readable, Fronted, Tagged;
    u, fewer := PolledLinked(s, t, x, y, plan, lefts, rights);
    assert ProcessPdu(s.left.manager, s.right.manager.outbound[0]) == Fail(s.left.manager, NotOpen);
  }

  /** The first proposal the end takes gives it the engine it was to have. */
  lemma ConfiguredStands(e: End, n: Manager, side: E.Side, x: u16, y: u16, plan: Plan, tags: seq<Ertm.Tag>)
    requires Stands(e, side, x, y, plan, tags) && e.manager.channels[x].ertm.None? && x in n.channels && EnginesValid(n)
    requires n.channels[x].ertm == Some(Ertm.Fresh(plan.own)) && n.channels[x].fcsEnabled == plan.fcs
             && n.channels[x].received == []
    requires |e.manager.outbound| <= |n.outbound| && n.outbound[..|e.manager.outbound|] == e.manager.outbound
    requires NoneFor(n.outbound[|e.manager.outbound|..], y)
    ensures Stands(e.(manager := n), side, x, y, plan, tags)
  {
    hide EnginesValid, Lift, Ertm.Fresh;
    var m, fcs := e.manager, plan.fcs;
    var more := n.outbound[|m.outbound|..];
    assert n.outbound == m.outbound + more;
    FramesConcat(m.outbound, more, y, fcs);
    NoFrames(more, y, fcs);
    ReadableMore(m.outbound, more, y, fcs);
    hide FramesTo, Readable;
  }

  lemma ReadableMore(queue: seq<Pdu>, more: seq<Pdu>, y: u16, fcs: bool)
    requires Readable(queue, y, fcs) && NoneFor(more, y)
    ensures Readable(queue + more, y, fcs)
  {
    hide Fcs.VerifyAndStripFcs;
  }
}
