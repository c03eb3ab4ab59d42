/**
  * Enhanced channels between two managers, over links that lose PDUs and under any
  * calls on any channels: opening in any order, using and closing. What either
  * application has taken from a channel is a prefix of what the other submitted.
  */
module EnhancedSafety {
  import opened Bytes
  import opened Signaling
  import opened Channels
  import opened ChannelAgreement
  import Lifecycle = ChannelLifecycle
  import Fcs
  import Ertm
  import E = ErtmLink
  import opened ErtmLift
  import opened Conversation
  import opened EnhancedLink

  // ---------------------------------------------------------------------------
  // The two ends of a channel
  // ---------------------------------------------------------------------------

  // The end `y` of `r` accepted the request of the end `x` of `l`.
  predicate Partners(l: Manager, r: Manager, x: u16, y: u16) {
    && x in l.channels && !l.channels[x].incoming
    && y in r.channels && r.channels[y].incoming && r.channels[y].destinationCid == x
  }

  // Two ends of one channel, whichever asked for it.
  predicate Couple(l: Manager, r: Manager, x: u16, y: u16) { Partners(l, r, x, y) || Partners(r, l, y, x) }

  predicate BothEnhanced(l: Manager, r: Manager, x: u16, y: u16)
    requires Couple(l, r, x, y)
  {
    l.channels[x].spec.Enhanced? && r.channels[y].spec.Enhanced?
  }

  /** No other end talks to either of them. */
  lemma CoupleAlone(l: Manager, r: Manager, x: u16, y: u16)
    requires Talk(l, r) && Couple(l, r, x, y)
    ensures x >= FIRST_CID && y >= FIRST_CID && Aimed(l, x, y) && Aimed(r, y, x) && Alone(l, x, y) && Alone(r, y, x)
  {
    hide QueueOk;
    if Partners(l, r, x, y) { PartnersAlone(l, r, x, y); } else { PartnersAlone(r, l, y, x); }
  }

  lemma PartnersAlone(l: Manager, r: Manager, x: u16, y: u16)
    requires Ends(l, r) && Ends(r, l) && Partners(l, r, x, y)
    ensures x >= FIRST_CID && y >= FIRST_CID && Aimed(l, x, y) && Aimed(r, y, x) && Alone(l, x, y) && Alone(r, y, x)
  {
    assert EndOk(l, r, x) && EndOk(r, l, y);
    forall z <- l.channels | z != x ensures l.channels[z].destinationCid != y { assert EndOk(l, r, z); }
    forall w <- r.channels | w != y ensures r.channels[w].destinationCid != x { assert EndOk(r, l, w); }
  }

  // The check sequence and the engines the ends will have once configured.
  function PlanOf(l: Manager, r: Manager, x: u16, y: u16): Plan
    requires Couple(l, r, x, y) && BothEnhanced(l, r, x, y)
  {
    var a, b := l.channels[x].spec, r.channels[y].spec;
    Plan(a.fcs && b.fcs, EngineConfigFor(a, Offered(b)), EngineConfigFor(b, Offered(a)))
  }

  // ---------------------------------------------------------------------------
  // Proposals
  // ---------------------------------------------------------------------------

  // A proposal for the end `to`.
  predicate ProposalFor(p: Pdu, to: u16) {
    && p.cid == SIGNALING_CID
    && var f := DecodeFrame(p.payload);
    f.Success? && f.value.ConfigureRequest? && f.value.destinationCid == to
  }

  function Proposals(queue: seq<Pdu>, to: u16): nat {
    if queue == [] then 0 else (if ProposalFor(queue[0], to) then 1 else 0) + Proposals(queue[1..], to)
  }

  lemma {:induction false} ProposalsConcat(a: seq<Pdu>, b: seq<Pdu>, to: u16)
    ensures Proposals(a + b, to) == Proposals(a, to) + Proposals(b, to)
  {
    hide ProposalFor;
    if a == [] {
      assert a + b == b;
    } else {
      assert (a + b)[0] == a[0] && (a + b)[1..] == a[1..] + b;
      ProposalsConcat(a[1..], b, to);
    }
  }

  lemma {:induction false} NoProposals(queue: seq<Pdu>, to: u16)
    requires forall i :: 0 <= i < |queue| ==> !ProposalFor(queue[i], to)
    ensures Proposals(queue, to) == 0
  {
    hide ProposalFor;
    if queue != [] { NoProposals(queue[1..], to); }
  }

  lemma ProposalsWithout(queue: seq<Pdu>, i: nat, to: u16)
    requires i < |queue|
    ensures Proposals(E.Without(queue, i), to) == Proposals(queue, to) - (if ProposalFor(queue[i], to) then 1 else 0)
  {
    hide ProposalFor;
    var a, b, c := queue[..i], [queue[i]], queue[i + 1..];
    assert queue == a + b + c;
    ProposalsConcat(a + b, c, to);
    ProposalsConcat(a, b, to);
    ProposalsConcat(a, c, to);
    assert b[1..] == [] && Proposals([], to) == 0;
  }

  // At most one proposal for each end, and none once it has been taken or before its sender knows the way.
  predicate Paired(l: Manager, r: Manager, x: u16, y: u16)
    requires x in l.channels && y in r.channels
  {
    HalfPaired(l, r, x, y) && HalfPaired(r, l, y, x)
  }

  predicate HalfPaired(l: Manager, r: Manager, x: u16, y: u16)
    requires x in l.channels && y in r.channels
  {
    var c, d := l.channels[x], r.channels[y];
    && Proposals(l.outbound, y) <= 1 && (d.ertm.Some? ==> Proposals(l.outbound, y) == 0)
    && (c.destinationCid == 0 ==> d.ertm.None?) && (c.state == WaitConnectResponse ==> c.destinationCid == 0)
  }

  /** An end that does not know the way has proposed nothing. */
  lemma NothingProposed(l: Manager, r: Manager, y: u16)
    requires QueueOk(l, r) && y != 0 && forall z <- l.channels :: l.channels[z].destinationCid != y
    ensures Proposals(l.outbound, y) == 0
  {
    hide DecodeFrame, DecodeOptions, Proposal;
    forall i | 0 <= i < |l.outbound| ensures !ProposalFor(l.outbound[i], y) { assert PduOk(l.outbound[i], l, r); }
    NoProposals(l.outbound, y);
  }

  /** Steps that introduce nobody propose nothing. */
  lemma QuietProposals(m: Manager, n: Manager, to: u16)
    requires Quiet(m, n)
    ensures Proposals(n.outbound, to) == Proposals(m.outbound, to)
  {
    hide DecodeFrame;
    var more := n.outbound[|m.outbound|..];
    assert n.outbound == m.outbound + more;
    ProposalsConcat(m.outbound, more, to);
    forall i | 0 <= i < |more| ensures !ProposalFor(more[i], to) { assert more[i] == n.outbound[|m.outbound| + i]; }
    NoProposals(more, to);
  }

  // ---------------------------------------------------------------------------
  // The invariant
  // ---------------------------------------------------------------------------

  predicate Sane(l: Manager, r: Manager) { Lifecycle.Inv(l) && Lifecycle.Inv(r) && Talk(l, r) }

  predicate Untouched(e: End) { e.submitted == [] && e.taken == [] && e.raised == [] }

  // An end that has asked for a connection and that nobody talks to.
  predicate Waiting(m: Manager, other: Manager, x: u16) {
    x in m.channels && m.channels[x].spec.Enhanced? && !m.channels[x].incoming && Unnamed(other, x)
  }

  // Before a channel has two ends nothing has been done with it.
  predicate Unspoilt(e: End, other: Manager, x: u16) {
    && (x !in e.manager.channels && x >= FIRST_CID ==> Untouched(e))
    && (Waiting(e.manager, other, x) ==>
        Untouched(e) && e.manager.channels[x].ertm.None? && e.manager.channels[x].received == [])
  }

  // The engines the channel stands for, and the tags of the frames on their way.
  datatype Ghost = Ghost(t: E.System, lefts: seq<Ertm.Tag>, rights: seq<Ertm.Tag>)

  predicate Holds(s: System, x: u16, y: u16, g: Ghost)
    requires Couple(s.left.manager, s.right.manager, x, y) && BothEnhanced(s.left.manager, s.right.manager, x, y)
  {
    && Linked(s, g.t, x, y, PlanOf(s.left.manager, s.right.manager, x, y), g.lefts, g.rights)
    && Paired(s.left.manager, s.right.manager, x, y)
  }

  // Two enhanced ends of one channel that stand for these engines.
  predicate Sound(s: System, x: u16, y: u16, g: Ghost) {
    var l, r := s.left.manager, s.right.manager;
    Couple(l, r, x, y) && BothEnhanced(l, r, x, y) && Holds(s, x, y, g)
  }

  predicate CoupleHolds(s: System, x: u16, y: u16, g: Ghost) {
    var l, r := s.left.manager, s.right.manager;
    Couple(l, r, x, y) && BothEnhanced(l, r, x, y) ==> Holds(s, x, y, g)
  }

  predicate Inv(s: System, x: u16, y: u16, g: Ghost) {
    var l, r := s.left.manager, s.right.manager;
    Sane(l, r) && Unspoilt(s.left, r, x) && Unspoilt(s.right, l, y) && CoupleHolds(s, x, y, g)
  }

  function Back(g: Ghost): Ghost { Ghost(E.Swap(g.t), g.rights, g.lefts) }

  lemma InvBack(s: System, x: u16, y: u16, g: Ghost)
    requires Inv(s, x, y, g)
    ensures Inv(Swap(s), y, x, Back(g))
  {
    hide Lifecycle.Inv, Talk, Linked, Untouched, HalfPaired, EngineConfigFor, Offered;
    TalkBack(s.left.manager, s.right.manager);
    var l, r := s.left.manager, s.right.manager;
    if Couple(l, r, x, y) && BothEnhanced(l, r, x, y) {
      LinkedBack(s, g.t, x, y, PlanOf(l, r, x, y), g.lefts, g.rights);
    }
  }

  lemma SaneEngines(l: Manager, r: Manager)
    requires Sane(l, r)
    ensures EnginesValid(l) && EnginesValid(r) && Proper(l)
  {
    hide Talk, Ertm.ValidConfig;
    TalkProper(l, r);
  }

  // ---------------------------------------------------------------------------
  // Both managers stay sane
  // ---------------------------------------------------------------------------

  lemma CallSane(l: Manager, r: Manager, op: Lifecycle.Operation)
    requires Sane(l, r) && Allowed(Do(op))
    ensures EnginesValid(l) && Sane(Lifecycle.Perform(l, op), r) && Lifecycle.Evolves(l, Lifecycle.Perform(l, op))
  {
    SaneEngines(l, r);
    Lifecycle.PerformIsGood(l, op);
    hide Lifecycle.Inv, Talk, Quiet, Murmurs, Lifecycle.Evolves, EnginesValid, Proper, Connect, Tick;
    var n := Lifecycle.Perform(l, op);
    if op.ConnectTo? {
      ConnectTalk(l, r, op.target, op.spec);
    } else if op.Elapse? {
      TickQuiet(l, 0, op.ticks);
      QuietTalk(l, r, n);
    } else {
      CallMurmurs(l, op);
      MurmursQuiet(l, n, About(op));
      QuietTalk(l, r, n);
    }
  }

  lemma ReceiveSane(l: Manager, r: Manager)
    requires Sane(l, r) && r.outbound != []
    ensures var n, o := ProcessPdu(l, r.outbound[0]).manager, PollOutbound(r);
            Sane(n, o) && Lifecycle.Evolves(l, n) && o.channels == r.channels
  {
    DeliverTalk(l, r);
    Lifecycle.ProcessPduIsGood(l, r.outbound[0]);
    hide ProcessPdu, Talk, Lifecycle.ChannelOk, ValidSpec, Lifecycle.Evolves;
  }

  lemma LoseSane(l: Manager, r: Manager, i: nat)
    requires Sane(l, r)
    ensures Sane(l.(outbound := E.Without(l.outbound, i)), r)
  {
    LoseTalk(l, r, l.(outbound := E.Without(l.outbound, i)), i);
    hide Talk, Lifecycle.ChannelOk, ValidSpec;
  }

  // ---------------------------------------------------------------------------
  // Steps on a channel that has two ends
  // ---------------------------------------------------------------------------

  // A step of the left manager after which it has the same end.
  lemma StillCouple(l: Manager, r: Manager, n: Manager, o: Manager, x: u16, y: u16)
    requires Couple(l, r, x, y) && x in n.channels && o.channels == r.channels
    requires n.channels[x].incoming == l.channels[x].incoming && n.channels[x].spec == l.channels[x].spec
    requires l.channels[x].incoming ==> n.channels[x].destinationCid == l.channels[x].destinationCid
    ensures Couple(n, o, x, y)
    ensures BothEnhanced(l, r, x, y) ==> BothEnhanced(n, o, x, y) && PlanOf(n, o, x, y) == PlanOf(l, r, x, y)
  {
  }

  lemma PairedStep(l: Manager, r: Manager, n: Manager, x: u16, y: u16)
    requires x in l.channels && y in r.channels && Paired(l, r, x, y) && Quiet(l, n) && Lifecycle.Evolves(l, n)
    requires n.channels[x].ertm.Some? ==> l.channels[x].ertm.Some?
    ensures Paired(n, r, x, y)
  {
    QuietProposals(l, n, y);
    hide Minor, Names, Proposals;
    assert Lifecycle.Forward(l.channels[x], n.channels[x]);
  }

  // What is true of the system before and after a step of the left that introduces nobody.
  lemma QuietHolds(s: System, u: System, x: u16, y: u16, g: Ghost, h: Ghost)
    requires Sound(s, x, y, g) && u.right.manager == s.right.manager
    requires Quiet(s.left.manager, u.left.manager) && Lifecycle.Evolves(s.left.manager, u.left.manager)
    requires u.left.manager.channels[x].ertm.Some? ==> s.left.manager.channels[x].ertm.Some?
    requires Linked(u, h.t, x, y, PlanOf(s.left.manager, s.right.manager, x, y), h.lefts, h.rights)
    ensures Sound(u, x, y, h)
  {
    var l, r, n := s.left.manager, s.right.manager, u.left.manager;
    PairedStep(l, r, n, x, y);
    assert SameEnd(l.channels[x], n.channels[x]);
    hide Quiet, Lifecycle.Evolves, Linked, Paired;
    StillCouple(l, r, n, r, x, y);
  }

  /** A call that introduces nobody, on this channel or another. */
  lemma CallHolds(s: System, x: u16, y: u16, g: Ghost, op: Lifecycle.Operation) returns (h: Ghost)
    requires Sane(s.left.manager, s.right.manager) && Sound(s, x, y, g)
    requires Allowed(Do(op)) && !Introduces(op)
    ensures EnginesValid(s.left.manager)
    ensures Sound(Act(s, x, Do(op)), x, y, h)
  {
    var l, r, plan := s.left.manager, s.right.manager, PlanOf(s.left.manager, s.right.manager, x, y);
    SaneEngines(l, r);
    CallSane(l, r, op);
    CoupleAlone(l, r, x, y);
    var u := Act(s, x, Do(op));
    var n := Lifecycle.Perform(l, op);
    CallMurmurs(l, op);
    MurmursQuiet(l, n, About(op));
    assert u.left.manager == n && u.right == s.right;
    h := CallLinked(s, x, y, g, op, plan);
    EngineStays(l, op, x);
    hide Act, Lifecycle.Perform, Quiet, Murmurs, Linked, Lifecycle.Evolves, Paired, Sane, PlanOf;
    QuietHolds(s, u, x, y, g, h);
  }

  lemma EngineStays(l: Manager, op: Lifecycle.Operation, x: u16)
    requires EnginesValid(l) && x in l.channels && !Introduces(op)
    ensures var n := Lifecycle.Perform(l, op);
            x in n.channels ==> (n.channels[x].ertm.Some? ==> l.channels[x].ertm.Some?)
  {
    hide AfterEngine, Ertm.SendSdu, Ertm.SetReceiverBusy, EncodeFrame, FreePsm, Ertm.ValidConfig;
    match op
    case SendSdu(cid, sdu) =>
      if cid in l.channels && l.channels[cid].ertm.Some? {
        EngineElsewhere(l, cid, Ertm.SendSdu(l.channels[cid].ertm.value, sdu), x);
      }
    case SetBusy(cid, busy) =>
      if cid in l.channels && l.channels[cid].ertm.Some? {
        EngineElsewhere(l, cid, Ertm.SetReceiverBusy(l.channels[cid].ertm.value, busy), x);
      }
    case _ =>
  }

  lemma CallLinked(s: System, x: u16, y: u16, g: Ghost, op: Lifecycle.Operation, plan: Plan) returns (h: Ghost)
    requires EnginesValid(s.left.manager) && Proper(s.left.manager) && !Introduces(op) && x >= FIRST_CID
    requires Linked(s, g.t, x, y, plan, g.lefts, g.rights)
    requires Aimed(s.left.manager, x, y) && Alone(s.left.manager, x, y)
    requires Lifecycle.Inv(Lifecycle.Perform(s.left.manager, op)) && s.left.manager.channels[x].spec.Enhanced?
    ensures Linked(Act(s, x, Do(op)), h.t, x, y, plan, h.lefts, h.rights)
  {
    hide Linked, Act, EnginesValid, Proper, Aimed, Alone, Lifecycle.Inv;
    h := g;
    if op.SendSdu? && op.cid == x {
      var t, lefts := SendLinked(s, g.t, x, y, plan, g.lefts, g.rights, op.sdu);
      h := g.(t := t, lefts := lefts);
    } else if op.SetBusy? && op.cid == x {
      var t, lefts := BusyLinked(s, g.t, x, y, plan, g.lefts, g.rights, op.busy);
      h := g.(t := t, lefts := lefts);
    } else if op.TakeReceived? && op.cid == x {
      var t := TakeLinked(s, g.t, x, y, plan, g.lefts, g.rights);
      h := g.(t := t);
    } else {
      OtherCall(s, x, y, g, op, plan);
    }
  }

  lemma OtherCall(s: System, x: u16, y: u16, g: Ghost, op: Lifecycle.Operation, plan: Plan)
    requires EnginesValid(s.left.manager) && Proper(s.left.manager) && !Introduces(op) && x >= FIRST_CID
    requires Linked(s, g.t, x, y, plan, g.lefts, g.rights) && Alone(s.left.manager, x, y)
    requires Lifecycle.Inv(Lifecycle.Perform(s.left.manager, op)) && s.left.manager.channels[x].spec.Enhanced?
    requires About(op) == x ==> op.Close?
    ensures Linked(Act(s, x, Do(op)), g.t, x, y, plan, g.lefts, g.rights)
  {
    hide E.Inv, FramesTo, Readable, Fronted, Tagged, Lifecycle.Perform, Ertm.ValidConfig, Alone, Proper;
    var m, n := s.left.manager, Lifecycle.Perform(s.left.manager, op);
    assert EnginesValid(n);
    CallMurmurs(m, op);
    if About(op) == x {
      CloseNods(m, x);
      OpenHasEngine(n, x);
      LeavesNod(m, n, x, x, y, plan.fcs);
    } else {
      LeavesElsewhere(m, n, About(op), x, y, plan.fcs);
    }
    LeftLeaves(s, n, g.t, x, y, plan, g.lefts, g.rights);
    assert s.left.taken + [] == s.left.taken && s.left.submitted + [] == s.left.submitted;
  }

  // Closing changes the channel's state only.
  lemma CloseNods(m: Manager, x: u16)
    requires EnginesValid(m)
    ensures Nods(m, Lifecycle.Perform(m, Lifecycle.Close(x)), x)
    ensures x in m.channels ==> Lifecycle.Perform(m, Lifecycle.Close(x)).channels[x].spec == m.channels[x].spec
  {
    CloseMurmurs(m, x);
    hide EncodeFrame, Murmurs, EnginesValid;
  }

  // In the enhanced mode a channel without an engine is not open.
  lemma OpenHasEngine(m: Manager, x: u16)
    requires Lifecycle.Inv(m) && x in m.channels && m.channels[x].spec.Enhanced?
    ensures m.channels[x].ertm.None? ==> m.channels[x].state != Open
  {
    assert Lifecycle.ChannelOk(x, m.channels[x]);
  }

  lemma ElapseIs(s: System, x: u16, ticks: u32)
    requires EnginesValid(s.left.manager)
    ensures Act(s, x, Do(Lifecycle.Elapse(ticks)))
            == System(s.left.(manager := Tick(s.left.manager, 0, ticks).manager), s.right)
  {
    hide Tick, EnginesValid;
    assert s.left.taken + [] == s.left.taken && s.left.submitted + [] == s.left.submitted;
  }

  lemma ElapseHolds(s: System, x: u16, y: u16, g: Ghost, ticks: u32) returns (h: Ghost)
    requires Sane(s.left.manager, s.right.manager) && Sound(s, x, y, g)
    ensures EnginesValid(s.left.manager)
    ensures Sound(Act(s, x, Do(Lifecycle.Elapse(ticks))), x, y, h)
  {
    var l, r, plan := s.left.manager, s.right.manager, PlanOf(s.left.manager, s.right.manager, x, y);
    SaneEngines(l, r);
    CoupleAlone(l, r, x, y);
    hide Tick, Act, Quiet, Linked, Lifecycle.Evolves, Lifecycle.Inv, Paired, Talk, PlanOf, EnginesValid, Proper, Alone,
         Couple;
    CallSane(l, r, Lifecycle.Elapse(ticks));
    var u := Act(s, x, Do(Lifecycle.Elapse(ticks)));
    TickQuiet(l, 0, ticks);
    TickKeepsMode(l, 0, ticks, x);
    ElapseIs(s, x, ticks);
    var t, lefts := ElapseLinked(s, g.t, x, y, plan, g.lefts, g.rights, ticks);
    h := g.(t := t, lefts := lefts);
    QuietHolds(s, u, x, y, g, h);
  }

  // The clock touches only channels that have an engine.
  lemma {:induction false} TickKeepsMode(m: Manager, cid: nat, ticks: u32, x: u16)
    requires x in m.channels && cid <= 0x1_0000
    ensures var n := Tick(m, cid, ticks).manager;
            x in n.channels && (m.channels[x].ertm.None? ==> SameData(m.channels[x], n.channels[x]))
    decreases 0x1_0000 - cid
  {
    hide AfterEngine, Ertm.Tick;
    if cid <= 0xFFFF {
      if cid in m.channels && m.channels[cid].ertm.Some? {
        var step := Ertm.Tick(m.channels[cid].ertm.value, ticks);
        EngineElsewhere(m, cid, step, x);
        if AfterEngine(m, cid, step).error.None? {
          TickKeepsMode(AfterEngine(m, cid, step).manager, cid + 1, ticks, x);
        }
      } else {
        TickKeepsMode(m, cid + 1, ticks, x);
      }
    }
  }

  lemma EngineElsewhere(m: Manager, z: u16, step: Ertm.Step, x: u16)
    requires z in m.channels && m.channels[z].ertm.Some? && x in m.channels
    ensures var n := AfterEngine(m, z, step).manager;
            && x in n.channels && (x != z ==> n.channels[x] == m.channels[x])
            && (n.channels[x].ertm.Some? ==> m.channels[x].ertm.Some?)
  {
    hide QueueFrames;
    var c, e := m.channels[z], step.engine;
    var d := c.(ertm := Some(Drained(e)), received := c.received + e.received);
    var n := m.(channels := m.channels[z := c.(ertm := Some(e))]);
    Lifecycle.QueueFramesSame(n.(channels := n.channels[z := d]), c.destinationCid, c.fcsEnabled, e.outbound);
  }

  // An introduction changes nothing of the channel's data and queues nothing but signaling.
  lemma LeavesIntroduction(l: Manager, n: Manager, x: u16, y: u16, fcs: bool, z: u16, c: Channel,
                           frames: seq<ControlFrame>)
    requires Ready(l, x, y, fcs) && Does(l, n, z, c, frames) && Lifecycle.Inv(n) && l.channels[x].spec.Enhanced?
    requires z == x ==> SameData(l.channels[x], c) && c.spec == l.channels[x].spec
    ensures Leaves(l, n, x, y)
  {
    hide FramesTo, EncodeFrame, Readable, Ertm.ValidConfig, ValidSpec;
    OpenHasEngine(n, x);
    assert n.outbound[..|l.outbound|] == l.outbound && n.outbound[|l.outbound|..] == Signals(frames);
  }

  lemma ProposalsAdded(queue: seq<Pdu>, f: ControlFrame, y: u16)
    requires |Payload(f)| <= 0xFFFF && !f.Generic? && (f.ConnectionRequest? ==> ValidPsm(f.psm) && f.psm <= 0xFFFF)
    ensures Proposals(queue + [Signal(f)], y) == Proposals(queue, y)
            + (if f.ConfigureRequest? && f.destinationCid == y then 1 else 0)
  {
    hide EncodeFrame, DecodeFrame, Payload, ValidPsm;
    SignalingRoundTrip(f);
    ProposalsConcat(queue, [Signal(f)], y);
    assert [Signal(f)][1..] == [] && Proposals([], y) == 0;
  }

  lemma ResponseFits(id: byte, z: u16, w: u16)
    ensures |Payload(ConnectionResponse(id, z, w, SUCCESS, 0))| <= 0xFFFF
  {
    WordsLength(Fields(ConnectionResponse(id, z, w, SUCCESS, 0)));
  }

  lemma AcceptanceProposes(l: Manager, n: Manager, id: byte, next: byte, z: u16, w: u16, c: Channel, spec: ChannelSpec,
                           y: u16)
    requires Does(l, n, z, c, [ConnectionResponse(id, z, w, SUCCESS, 0), ProposalFrame(next, w, spec)])
    ensures Proposals(n.outbound, y) == Proposals(l.outbound, y) + if w == y then 1 else 0
  {
    var f, p := ConnectionResponse(id, z, w, SUCCESS, 0), ProposalFrame(next, w, spec);
    ResponseFits(id, z, w);
    ConfigurationsFit(next, w, spec);
    hide EncodeOptions, Payload, Signal, Proposals, ProposalFor;
    SignalsTwo(l.outbound, f, p);
    ProposalsAdded(l.outbound, f, y);
    ProposalsAdded(l.outbound + [Signal(f)], p, y);
  }

  lemma AnswerProposes(l: Manager, n: Manager, next: byte, z: u16, u: u16, c: Channel, spec: ChannelSpec, y: u16)
    requires Does(l, n, z, c, [ProposalFrame(next, u, spec)])
    ensures Proposals(n.outbound, y) == Proposals(l.outbound, y) + if u == y then 1 else 0
  {
    var p := ProposalFrame(next, u, spec);
    ConfigurationsFit(next, u, spec);
    hide EncodeOptions, Payload, Signal, Proposals, ProposalFor;
    ProposalsAdded(l.outbound, p, y);
    assert Signals([p]) == [Signal(p)];
  }

  // The left manager was introduced to somebody, and the channel's data stayed as it was.
  lemma IntroducedHolds(s: System, u: System, x: u16, y: u16, g: Ghost)
    requires Sound(s, x, y, g) && u.right == s.right && u.left == s.left.(manager := u.left.manager)
    requires Leaves(s.left.manager, u.left.manager, x, y) && Paired(u.left.manager, s.right.manager, x, y)
    requires var c, d := s.left.manager.channels[x], u.left.manager.channels[x];
             d.incoming == c.incoming && d.spec == c.spec && (c.incoming ==> d.destinationCid == c.destinationCid)
    ensures Sound(u, x, y, g)
  {
    hide Linked, Paired, Leaves, PlanOf;
    var l, r, n := s.left.manager, s.right.manager, u.left.manager;
    LeftLeaves(s, n, g.t, x, y, PlanOf(l, r, x, y), g.lefts, g.rights);
    assert x in n.channels by { assert Leaves(l, n, x, y); LeavesHas(l, n, x, y); }
    StillCouple(l, r, n, r, x, y);
  }

  lemma LeavesHas(l: Manager, n: Manager, x: u16, y: u16)
    requires Leaves(l, n, x, y)
    ensures x in n.channels
  {
    hide SameData, NoneFor, EnginesValid;
  }

  lemma SoundReady(s: System, x: u16, y: u16, g: Ghost)
    requires Sound(s, x, y, g)
    ensures var l, r := s.left.manager, s.right.manager;
            && Couple(l, r, x, y) && BothEnhanced(l, r, x, y) && Ready(l, x, y, PlanOf(l, r, x, y).fcs)
            && l.channels[x].spec.Enhanced? && y in r.channels && Paired(l, r, x, y)
  {
    hide Ready, E.Inv, Paired, PlanOf;
  }

  lemma ConnectDoes(m: Manager, psm: u32, spec: ChannelSpec) returns (z: u16, id: byte)
    requires Connect(m, psm, spec).0 != m
    ensures ValidPsm(psm) && z !in m.channels
    ensures Does(m, Connect(m, psm, spec).0, z, OutgoingChannel(psm, z, spec), [ConnectionRequest(id, psm, z)])
  {
    hide FreeCid, ValidPsm, EncodeFrame, ValidSpec;
    z, id := FreeCid(m.channels, FIRST_CID).value, NextIdentifier(m.identifier);
  }

  lemma RequestProposes(l: Manager, n: Manager, z: u16, c: Channel, id: byte, psm: u32, y: u16)
    requires Does(l, n, z, c, [ConnectionRequest(id, psm, z)]) && ValidPsm(psm) && psm <= 0xFFFF
    ensures Proposals(n.outbound, y) == Proposals(l.outbound, y)
  {
    var f := ConnectionRequest(id, psm, z);
    ConnectionRequestDecodes(f);
    hide Payload, Signal, Proposals, ProposalFor, ValidPsm;
    ProposalsAdded(l.outbound, f, y);
    assert Signals([f]) == [Signal(f)];
  }

  // Another channel was added.
  lemma NewcomerHolds(s: System, n: Manager, x: u16, y: u16, g: Ghost, z: u16, c: Channel, frames: seq<ControlFrame>)
    requires Sound(s, x, y, g) && Lifecycle.Inv(n) && z !in s.left.manager.channels
             && Does(s.left.manager, n, z, c, frames)
    requires Proposals(n.outbound, y) == Proposals(s.left.manager.outbound, y)
    ensures Sound(s.(left := s.left.(manager := n)), x, y, g)
  {
    var l, r := s.left.manager, s.right.manager;
    SoundReady(s, x, y, g);
    LeavesIntroduction(l, n, x, y, PlanOf(l, r, x, y).fcs, z, c, frames);
    hide Sound, Ready, Lifecycle.Inv, Proposals, Signals, Leaves, PlanOf;
    IntroducedHolds(s, s.(left := s.left.(manager := n)), x, y, g);
  }

  /** Asking for another channel. */
  lemma ConnectHolds(s: System, x: u16, y: u16, g: Ghost, psm: u32, spec: ChannelSpec)
    requires Sane(s.left.manager, s.right.manager) && Sound(s, x, y, g) && psm <= 0xFFFF
    ensures Sound(s.(left := s.left.(manager := Connect(s.left.manager, psm, spec).0)), x, y, g)
  {
    hide Sound, Talk, Lifecycle.Inv, Connect, ValidPsm, Does, Proposals, Lifecycle.Evolves;
    var l, r, n := s.left.manager, s.right.manager, Connect(s.left.manager, psm, spec).0;
    CallSane(l, r, Lifecycle.ConnectTo(psm, spec));
    if n != l {
      var z, id := ConnectDoes(l, psm, spec);
      RequestProposes(l, n, z, OutgoingChannel(psm, z, spec), id, psm, y);
      NewcomerHolds(s, n, x, y, g, z, OutgoingChannel(psm, z, spec), [ConnectionRequest(id, psm, z)]);
    }
  }

  // ---------------------------------------------------------------------------
  // PDUs that arrive at a channel that has two ends
  // ---------------------------------------------------------------------------

  // The step leaves the channel alone and introduces nobody.
  lemma LeavesHolds(s: System, n: Manager, x: u16, y: u16, g: Ghost)
    requires Sound(s, x, y, g) && Leaves(s.left.manager, n, x, y) && Quiet(s.left.manager, n)
             && Lifecycle.Evolves(s.left.manager, n)
    ensures Sound(s.(left := s.left.(manager := n)), x, y, g)
  {
    var l, r := s.left.manager, s.right.manager;
    LeavesMode(l, n, x, y);
    hide Linked, Paired, Leaves, PlanOf, Quiet, Lifecycle.Evolves;
    LeftLeaves(s, n, g.t, x, y, PlanOf(l, r, x, y), g.lefts, g.rights);
    QuietHolds(s, s.(left := s.left.(manager := n)), x, y, g, g);
  }

  lemma LeavesMode(l: Manager, n: Manager, x: u16, y: u16)
    requires Leaves(l, n, x, y)
    ensures x in l.channels && x in n.channels && n.channels[x].ertm == l.channels[x].ertm
  {
    hide NoneFor, EnginesValid;
  }

  lemma NodHolds(s: System, n: Manager, x: u16, y: u16, g: Ghost, z: u16)
    requires Sound(s, x, y, g) && Nods(s.left.manager, n, z) && Lifecycle.Inv(n) && Lifecycle.Evolves(s.left.manager, n)
    ensures Sound(s.(left := s.left.(manager := n)), x, y, g)
  {
    var l, r := s.left.manager, s.right.manager;
    SoundReady(s, x, y, g);
    MurmursQuiet(l, n, z);
    InvEngines(n);
    assert SameEnd(l.channels[x], n.channels[x]);
    OpenHasEngine(n, x);
    hide Sound, Lifecycle.Inv, Ready, Nods, Quiet, Lifecycle.Evolves, EnginesValid, PlanOf, Paired;
    LeavesNod(l, n, z, x, y, PlanOf(l, r, x, y).fcs);
    LeavesHolds(s, n, x, y, g);
  }

  lemma InvEngines(m: Manager)
    requires Lifecycle.Inv(m)
    ensures EnginesValid(m)
  {
    hide ValidSpec, Ertm.ValidConfig;
  }

  lemma ElsewhereHolds(s: System, n: Manager, x: u16, y: u16, g: Ghost, z: u16)
    requires Talk(s.left.manager, s.right.manager) && Sound(s, x, y, g)
    requires Murmurs(s.left.manager, n, z) && z != x && Lifecycle.Inv(n) && Lifecycle.Evolves(s.left.manager, n)
    ensures Sound(s.(left := s.left.(manager := n)), x, y, g)
  {
    var l, r := s.left.manager, s.right.manager;
    hide Talk, Lifecycle.Inv, Ready, Murmurs, Quiet, Lifecycle.Evolves, EnginesValid, PlanOf, Paired, Couple, Sound,
         Alone;
    SoundReady(s, x, y, g);
    CoupleAlone(l, r, x, y);
    MurmursQuiet(l, n, z);
    InvEngines(n);
    LeavesElsewhere(l, n, z, x, y, PlanOf(l, r, x, y).fcs);
    LeavesHolds(s, n, x, y, g);
  }

  // The oldest PDU of the right leaves its queue.
  lemma PolledHolds(s: System, x: u16, y: u16, g: Ghost) returns (h: Ghost)
    requires Sound(s, x, y, g) && s.right.manager.outbound != []
    ensures Sound(s.(right := s.right.(manager := PollOutbound(s.right.manager))), x, y, h)
    ensures x in s.left.manager.channels
    ensures ProposalFor(s.right.manager.outbound[0], x) ==>
              s.left.manager.channels[x].ertm.None? && Proposals(PollOutbound(s.right.manager).outbound, x) == 0
  {
    var l, r := s.left.manager, s.right.manager;
    PolledPaired(l, r, x, y);
    StillCouple(l, r, l, PollOutbound(r), x, y);
    hide Linked, Paired, ProposalFor, Proposals, PlanOf, Couple, PollOutbound;
    var t, fewer := PolledLinked(s, g.t, x, y, PlanOf(l, r, x, y), g.lefts, g.rights);
    h := g.(t := t, rights := fewer);
  }

  lemma PolledPaired(l: Manager, r: Manager, x: u16, y: u16)
    requires x in l.channels && y in r.channels && Paired(l, r, x, y) && r.outbound != []
    ensures Paired(l, PollOutbound(r), x, y)
    ensures ProposalFor(r.outbound[0], x) ==> l.channels[x].ertm.None? && Proposals(PollOutbound(r).outbound, x) == 0
  {
    hide ProposalFor;
  }

  // What a proposal for `x` proposes.
  lemma ProposalReads(l: Manager, r: Manager, f: ControlFrame, x: u16, y: u16)
    requires Talk(l, r) && Couple(l, r, x, y) && FrameOk(f, r, l) && f.ConfigureRequest? && f.destinationCid == x
    ensures f.flags == 0 && DecodeOptions(f.options) == Success(Proposal(r.channels[y].spec))
            && r.channels[y].destinationCid != 0
  {
    CoupleAlone(l, r, x, y);
    hide Talk, Proposal, DecodeOptions;
  }

  lemma ConfiguredHolds(s: System, n: Manager, x: u16, y: u16, g: Ghost)
    requires Sound(s, x, y, g) && Quiet(s.left.manager, n) && OnlySignals(s.left.manager, n)
             && Lifecycle.Evolves(s.left.manager, n)
    requires s.left.manager.channels[x].ertm.None? && EnginesValid(n) && s.right.manager.channels[y].destinationCid != 0
    requires Proposals(s.right.manager.outbound, x) == 0
    requires var plan, d := PlanOf(s.left.manager, s.right.manager, x, y), n.channels[x];
             d.ertm == Some(Ertm.Fresh(plan.own)) && d.fcsEnabled == plan.fcs && d.received == []
    ensures Sound(s.(left := s.left.(manager := n)), x, y, g)
  {
    var l, r, plan := s.left.manager, s.right.manager, PlanOf(s.left.manager, s.right.manager, x, y);
    ConfiguredPaired(l, r, n, x, y);
    assert SameEnd(l.channels[x], n.channels[x]);
    hide Paired, PlanOf, Stands, E.Inv, EnginesValid, Lifecycle.Evolves, Proposals, Quiet, OnlySignals, NoneFor, Couple,
         Ready;
    SoundReady(s, x, y, g);
    QuietSignals(l, n, x, y, plan.fcs);
    StillCouple(l, r, n, r, x, y);
    ConfiguredStands(s.left, n, g.t.left, x, y, plan, g.lefts);
  }

  lemma QuietSignals(l: Manager, n: Manager, x: u16, y: u16, fcs: bool)
    requires Ready(l, x, y, fcs) && Quiet(l, n) && OnlySignals(l, n)
    ensures |l.outbound| <= |n.outbound| && n.outbound[..|l.outbound|] == l.outbound
            && NoneFor(n.outbound[|l.outbound|..], y)
  {
    hide Minor, Names, FramesTo, EnginesValid;
  }

  lemma ConfiguredPaired(l: Manager, r: Manager, n: Manager, x: u16, y: u16)
    requires x in l.channels && y in r.channels && Paired(l, r, x, y) && Quiet(l, n) && Lifecycle.Evolves(l, n)
    requires Proposals(r.outbound, x) == 0 && r.channels[y].destinationCid != 0
    ensures Paired(n, r, x, y)
  {
    QuietProposals(l, n, y);
    hide Minor, Names, Proposals;
    assert Lifecycle.Forward(l.channels[x], n.channels[x]);
  }

  // What the peer's proposal makes of the end: the engine it was to have, or nothing.
  lemma ProposalVerdict(c: Channel, p: ChannelSpec)
    requires ValidSpec(c.spec) && ValidSpec(p) && c.spec.Enhanced? && p.Enhanced? && c.received == []
    ensures var d := ConfigureVerdict(c, 0, Proposal(p)).channel;
            || SameData(c, d)
            || (&& d.ertm == Some(Ertm.Fresh(EngineConfigFor(c.spec, Offered(p))))
                && d.fcsEnabled == (c.spec.fcs && p.fcs) && d.received == [])
  {
    AcceptedExactlyWhenAgreed(c, p);
    VerdictSameEnd(c, 0, Proposal(p));
    hide ConfigureVerdict, Proposal, EngineConfigFor, Ertm.Fresh;
  }

  // The end after a proposal that it did not accept.
  lemma LeavesRefusal(l: Manager, n: Manager, x: u16, y: u16, fcs: bool)
    requires Ready(l, x, y, fcs) && Quiet(l, n) && OnlySignals(l, n) && Lifecycle.Inv(n) && l.channels[x].spec.Enhanced?
    requires SameData(l.channels[x], n.channels[x])
    ensures Leaves(l, n, x, y)
  {
    QuietSignals(l, n, x, y, fcs);
    InvEngines(n);
    assert SameEnd(l.channels[x], n.channels[x]);
    OpenHasEngine(n, x);
    hide Quiet, OnlySignals, Ready, Lifecycle.Inv, EnginesValid, NoneFor;
  }

  lemma SaneSpecs(l: Manager, r: Manager, x: u16, y: u16)
    requires Sane(l, r) && x in l.channels && y in r.channels
    ensures ValidSpec(l.channels[x].spec) && ValidSpec(r.channels[y].spec)
  {
    hide Talk, ValidSpec, Ertm.ValidConfig;
    assert Lifecycle.ChannelOk(x, l.channels[x]) && Lifecycle.ChannelOk(y, r.channels[y]);
  }

  lemma ReadyIdle(m: Manager, x: u16, y: u16, fcs: bool)
    requires Ready(m, x, y, fcs) && m.channels[x].ertm.None?
    ensures m.channels[x].received == []
  {
    hide FramesTo, EnginesValid, Readable;
  }

  lemma ProposalHolds(s: System, n: Manager, x: u16, y: u16, g: Ghost, f: ControlFrame)
    requires Sane(s.left.manager, s.right.manager) && Sound(s, x, y, g)
    requires f.ConfigureRequest? && f.destinationCid == x && FrameOk(f, s.right.manager, s.left.manager)
    requires x in s.left.manager.channels && s.left.manager.channels[x].ertm.None?
             && Proposals(s.right.manager.outbound, x) == 0
    requires n == OnConfigureRequest(s.left.manager, f.identifier, x, f.flags, f.options).manager
    requires Lifecycle.Inv(n) && Lifecycle.Evolves(s.left.manager, n)
    ensures Sound(s.(left := s.left.(manager := n)), x, y, g)
  {
    var l, r := s.left.manager, s.right.manager;
    SoundReady(s, x, y, g);
    var fcs := PlanOf(l, r, x, y).fcs;
    ProposalReads(l, r, f, x, y);
    SaneSpecs(l, r, x, y);
    ReadyIdle(l, x, y, fcs);
    ProposalVerdict(l.channels[x], r.channels[y].spec);
    ProposalMurmurs(l, f.identifier, x, f.flags, f.options);
    MurmursQuiet(l, n, x);
    InvEngines(n);
    hide OnConfigureRequest, Ready, Quiet, OnlySignals, Lifecycle.Inv, Lifecycle.Evolves, Talk, FrameOk, Sound,
         ConfigureVerdict, Murmurs, EnginesValid, EngineConfigFor, Offered, Proposal, DecodeOptions, Ertm.Fresh, Paired,
         Couple, ValidSpec, Proposals;
    if SameData(l.channels[x], n.channels[x]) {
      LeavesRefusal(l, n, x, y, fcs);
      LeavesHolds(s, n, x, y, g);
    } else {
      ConfiguredHolds(s, n, x, y, g);
    }
  }

  // A requester that nobody names is not one of the two ends.
  lemma RequesterIsOther(l: Manager, r: Manager, x: u16, y: u16, w: u16)
    requires Couple(l, r, x, y) && Requests(r, l, w)
    ensures w != y
  {
  }

  lemma AcceptHolds(s: System, n: Manager, x: u16, y: u16, g: Ghost, id: byte, psm: u32, w: u16)
    requires Sound(s, x, y, g) && Requests(s.right.manager, s.left.manager, w)
    requires psm in s.left.manager.servers && FreeCid(s.left.manager.channels, FIRST_CID).Some?
    requires n == ProcessControl(s.left.manager, ConnectionRequest(id, psm, w)).manager && Lifecycle.Inv(n)
    ensures Sound(s.(left := s.left.(manager := n)), x, y, g)
  {
    var l, r := s.left.manager, s.right.manager;
    hide Sound, Requests, FreeCid, ProcessControl, Lifecycle.Inv, Does, ProposalFrame, Proposals, Couple;
    SoundReady(s, x, y, g);
    RequesterIsOther(l, r, x, y, w);
    RequestTaken(l, id, psm, w);
    var z, spec, next := FreeCid(l.channels, FIRST_CID).value, l.servers[psm], NextIdentifier(l.identifier);
    var c, frames := IncomingChannel(psm, z, w, spec),
                     [ConnectionResponse(id, z, w, SUCCESS, 0), ProposalFrame(next, w, spec)];
    AcceptanceProposes(l, n, id, next, z, w, c, spec, y);
    NewcomerHolds(s, n, x, y, g, z, c, frames);
  }

  // The acceptor of `w` is the other end exactly when `w` is this one.
  lemma AcceptorIs(l: Manager, r: Manager, x: u16, y: u16, u: u16, w: u16)
    requires Talk(l, r) && Couple(l, r, x, y) && Accepts(r, u, w)
    ensures u == y <==> w == x
    ensures w in l.channels && !l.channels[w].incoming && l.channels[w].destinationCid in {0, u}
  {
    hide QueueOk;
    assert EndOk(r, l, u) && EndOk(l, r, x) && EndOk(r, l, y);
    assert EndOk(l, r, w);
  }

  lemma AnsweredPaired(l: Manager, r: Manager, n: Manager, x: u16, y: u16, next: byte, u: u16, w: u16)
    requires Talk(l, r) && Couple(l, r, x, y) && Paired(l, r, x, y) && Accepts(r, u, w)
    requires w in l.channels && l.channels[w].state == WaitConnectResponse
    requires Does(l, n, w, l.channels[w].(connectionResult := Some(SUCCESS), destinationCid := u, state := Configuring),
                  [ProposalFrame(next, u, l.channels[w].spec)])
    ensures Paired(n, r, x, y)
  {
    AcceptorIs(l, r, x, y, u, w);
    AnswerProposes(l, n, next, w, u, n.channels[w], l.channels[w].spec, y);
    if w == x {
      CoupleAlone(l, r, x, y);
      NothingProposed(l, r, y);
    }
    hide Talk, Proposals, ProposalFrame, Signals;
  }

  lemma AnswerHolds(s: System, n: Manager, x: u16, y: u16, g: Ghost, id: byte, u: u16, w: u16)
    requires Talk(s.left.manager, s.right.manager) && Sound(s, x, y, g) && Accepts(s.right.manager, u, w)
    requires w in s.left.manager.channels && s.left.manager.channels[w].state == WaitConnectResponse
    requires n == ProcessControl(s.left.manager, ConnectionResponse(id, u, w, SUCCESS, 0)).manager && Lifecycle.Inv(n)
    ensures Sound(s.(left := s.left.(manager := n)), x, y, g)
  {
    var l, r := s.left.manager, s.right.manager;
    hide Sound, Talk, ProcessControl, Lifecycle.Inv, ProposalFrame, Proposals, Couple, Paired, Ready, Accepts, PlanOf,
         Leaves, Signals;
    SoundReady(s, x, y, g);
    ResponseTaken(l, id, u, w);
    AcceptorIs(l, r, x, y, u, w);
    var next, d := NextIdentifier(l.identifier),
                   l.channels[w].(connectionResult := Some(SUCCESS), destinationCid := u, state := Configuring);
    AnsweredPaired(l, r, n, x, y, next, u, w);
    LeavesIntroduction(l, n, x, y, PlanOf(l, r, x, y).fcs, w, d, [ProposalFrame(next, u, l.channels[w].spec)]);
    IntroducedHolds(s, s.(left := s.left.(manager := n)), x, y, g);
  }

  lemma ResponseIs(m: Manager, f: ControlFrame)
    requires f.ConnectionResponse?
    ensures ProcessControl(m, f)
            == ProcessControl(m, ConnectionResponse(f.identifier, f.destinationCid, f.sourceCid, f.result, 0))
  {
    hide OnConnectionResponse;
  }

  /** A signaling frame, whatever it is. */
  lemma SignalHolds(s: System, x: u16, y: u16, g: Ghost, f: ControlFrame)
    requires Sane(s.left.manager, s.right.manager) && Sound(s, x, y, g) && FrameOk(f, s.right.manager, s.left.manager)
    requires Lifecycle.Good(s.left.manager, ProcessControl(s.left.manager, f).manager) && x in s.left.manager.channels
    requires f.ConfigureRequest? && f.destinationCid == x ==>
               s.left.manager.channels[x].ertm.None? && Proposals(s.right.manager.outbound, x) == 0
    ensures Sound(s.(left := s.left.(manager := ProcessControl(s.left.manager, f).manager)), x, y, g)
  {
    hide Talk, Lifecycle.Inv, Lifecycle.Evolves, Murmurs, FreeCid, OnConnectionRequest, OnConnectionResponse,
         OnConfigureRequest, ProcessControl, Proposes, Requests, Accepts, Sound, Nods, Proposals;
    var l, r := s.left.manager, s.right.manager;
    var n := ProcessControl(l, f).manager;
    if Plain(l, f) {
      PlainNods(l, f);
      NodHolds(s, n, x, y, g, Addressee(f));
    } else if f.ConfigureRequest? {
      ControlIs(l, f);
      if f.destinationCid == x {
        ProposalHolds(s, n, x, y, g, f);
      } else {
        ProposalMurmurs(l, f.identifier, f.destinationCid, f.flags, f.options);
        ElsewhereHolds(s, n, x, y, g, f.destinationCid);
      }
    } else if f.ConnectionRequest? {
      AcceptHolds(s, n, x, y, g, f.identifier, f.psm, f.sourceCid);
    } else {
      ResponseIs(l, f);
      AnswerHolds(s, n, x, y, g, f.identifier, f.destinationCid, f.sourceCid);
    }
  }

  // A data PDU of the channel gives it no engine.
  lemma DataKeepsMode(m: Manager, p: Pdu, x: u16)
    requires x in m.channels && p.cid != SIGNALING_CID
    ensures var n := ProcessPdu(m, p).manager;
            x in n.channels && (n.channels[x].ertm.Some? ==> m.channels[x].ertm.Some?)
  {
    hide AfterEngine, Ertm.ReceiveFrame, Fcs.VerifyAndStripFcs;
    if p.cid in m.channels && m.channels[p.cid].state == Open && m.channels[p.cid].ertm.Some? {
      var c := m.channels[p.cid];
      var payload := if c.fcsEnabled then Fcs.VerifyAndStripFcs(p.cid, p.payload) else Success(p.payload);
      if payload.Success? { EngineElsewhere(m, p.cid, Ertm.ReceiveFrame(c.ertm.value, payload.value), x); }
    }
  }

  lemma DataQuiet(l: Manager, r: Manager, p: Pdu, x: u16)
    requires Sane(l, r) && x in l.channels && p.cid != SIGNALING_CID
    ensures var n := ProcessPdu(l, p).manager;
            Quiet(l, n) && x in n.channels && (n.channels[x].ertm.Some? ==> l.channels[x].ertm.Some?)
  {
    hide Talk, Lifecycle.Inv, ProcessPdu, Murmurs, Quiet, Proper;
    TalkProper(l, r);
    DataMurmurs(l, p);
    MurmursQuiet(l, ProcessPdu(l, p).manager, p.cid);
    DataKeepsMode(l, p, x);
  }

  lemma OwnDataLinked(s: System, x: u16, y: u16, g: Ghost, plan: Plan) returns (k: Ghost)
    requires Linked(s, g.t, x, y, plan, g.lefts, g.rights) && Aimed(s.left.manager, x, y) && x >= FIRST_CID
    requires s.right.manager.outbound != [] && s.right.manager.outbound[0].cid == x && EnginesValid(s.left.manager)
    ensures Linked(Act(s, x, Receive), k.t, x, y, plan, k.lefts, k.rights)
  {
    hide Linked, Act, EnginesValid;
    if s.left.manager.channels[x].state == Open {
      var t, more := ReceiveOpen(s, g.t, x, y, plan, g.lefts, g.rights);
      k := Ghost(t, more, g.rights[1..]);
    } else {
      var t, fewer := ReceiveClosed(s, g.t, x, y, plan, g.lefts, g.rights);
      k := Ghost(t, g.lefts, fewer);
    }
  }

  lemma ReceiveManagers(s: System, x: u16)
    requires EnginesValid(s.left.manager) && s.right.manager.outbound != []
    ensures var u := Act(s, x, Receive);
            && u.left.manager == ProcessPdu(s.left.manager, s.right.manager.outbound[0]).manager
            && u.right.manager == PollOutbound(s.right.manager)
  {
    hide ProcessPdu, EnginesValid;
  }

  // The left's own frame arrives.
  lemma OwnDataHolds(s: System, o: System, x: u16, y: u16, g: Ghost, h: Ghost) returns (k: Ghost)
    requires Sane(s.left.manager, s.right.manager) && Sound(s, x, y, g) && EnginesValid(s.left.manager)
    requires s.right.manager.outbound != [] && s.right.manager.outbound[0].cid == x
    requires o == s.(right := s.right.(manager := PollOutbound(s.right.manager))) && Sound(o, x, y, h)
    requires Lifecycle.Evolves(s.left.manager, ProcessPdu(s.left.manager, s.right.manager.outbound[0]).manager)
    ensures Sound(Act(s, x, Receive), x, y, k)
  {
    var l, r, p := s.left.manager, s.right.manager, s.right.manager.outbound[0];
    hide Act, Talk, Lifecycle.Inv, Lifecycle.Evolves, Linked, Paired, ProcessPdu, Quiet, Couple, PollOutbound,
         EnginesValid, PlanOf;
    PolledChannels(r);
    StillCouple(l, r, l, PollOutbound(r), x, y);
    CoupleAlone(l, r, x, y);
    DataQuiet(l, r, p, x);
    ReceiveManagers(s, x);
    k := OwnDataLinked(s, x, y, g, PlanOf(l, r, x, y));
    QuietHolds(o, Act(s, x, Receive), x, y, h, k);
  }

  lemma PolledChannels(m: Manager)
    ensures PollOutbound(m).channels == m.channels
  {
  }

  // The PDU is not this channel's: the right lets go of it, and the left takes it in.
  lemma OtherArrives(s: System, x: u16)
    requires EnginesValid(s.left.manager) && s.right.manager.outbound != [] && s.right.manager.outbound[0].cid != x
    ensures var o := s.(right := s.right.(manager := PollOutbound(s.right.manager)));
            Act(s, x, Receive)
                == o.(left := o.left.(manager := ProcessPdu(s.left.manager, s.right.manager.outbound[0]).manager))
  {
    hide ProcessPdu, EnginesValid;
    assert s.left.raised + [] == s.left.raised;
  }

  // The same on the system from which the right has let go of the PDU.
  lemma OtherHolds(o: System, p: Pdu, x: u16, y: u16, h: Ghost)
    requires Sane(o.left.manager, o.right.manager) && Sound(o, x, y, h) && p.cid != x
             && PduOk(p, o.right.manager, o.left.manager)
    requires Lifecycle.Good(o.left.manager, ProcessPdu(o.left.manager, p).manager) && x in o.left.manager.channels
    requires ProposalFor(p, x) ==> o.left.manager.channels[x].ertm.None? && Proposals(o.right.manager.outbound, x) == 0
    ensures Sound(o.(left := o.left.(manager := ProcessPdu(o.left.manager, p).manager)), x, y, h)
  {
    var l, r := o.left.manager, o.right.manager;
    hide Talk, Lifecycle.Inv, Lifecycle.Evolves, Sound, Proposals, ProcessControl, DecodeFrame, Murmurs, Proper;
    if p.cid != SIGNALING_CID {
      hide ProcessPdu;
      TalkProper(l, r);
      DataMurmurs(l, p);
      ElsewhereHolds(o, ProcessPdu(l, p).manager, x, y, h, p.cid);
    } else if DecodeFrame(p.payload).Success? {
      SignalHolds(o, x, y, h, DecodeFrame(p.payload).value);
    }
  }

  lemma PolledSane(l: Manager, r: Manager)
    requires Sane(l, r) && r.outbound != []
    ensures Sane(l, PollOutbound(r)) && PduOk(r.outbound[0], PollOutbound(r), l)
  {
    TalkBack(l, r);
    var q := PollOutbound(r);
    assert [] + r.outbound[1..] == r.outbound[1..];
    LoseTalk(r, l, q, 0);
    TalkBack(q, l);
    assert PduOk(r.outbound[0], r, l);
    PduOkSame(r.outbound[0], r, l, q, l);
    hide Talk, Lifecycle.ChannelOk, ValidSpec, PduOk;
  }

  lemma OtherReceived(s: System, x: u16, y: u16, h: Ghost)
    requires var l, r := s.left.manager, s.right.manager;
             && Sane(l, r) && EnginesValid(l) && r.outbound != [] && r.outbound[0].cid != x && x in l.channels
             && Sound(s.(right := s.right.(manager := PollOutbound(r))), x, y, h)
             && (ProposalFor(r.outbound[0], x) ==>
                 l.channels[x].ertm.None? && Proposals(PollOutbound(r).outbound, x) == 0)
    ensures Sound(Act(s, x, Receive), x, y, h)
  {
    hide Act, Talk, Lifecycle.Inv, Lifecycle.Evolves, Sound, ProposalFor, Proposals, ProcessPdu, EnginesValid,
         PollOutbound, PduOk;
    var l, r, p := s.left.manager, s.right.manager, s.right.manager.outbound[0];
    Lifecycle.ProcessPduIsGood(l, p);
    PolledSane(l, r);
    OtherArrives(s, x);
    OtherHolds(s.(right := s.right.(manager := PollOutbound(r))), p, x, y, h);
  }

  /** Any PDU, whatever it is. */
  lemma ReceiveHolds(s: System, x: u16, y: u16, g: Ghost) returns (h: Ghost)
    requires Sane(s.left.manager, s.right.manager) && Sound(s, x, y, g) && EnginesValid(s.left.manager)
    ensures Sound(Act(s, x, Receive), x, y, h)
  {
    h := g;
    var l, r := s.left.manager, s.right.manager;
    if r.outbound == [] {
      hide Sound, EnginesValid, Sane;
    } else {
      hide Act, Talk, Lifecycle.Inv, Lifecycle.Evolves, Sound, ProposalFor, Proposals, ProcessPdu, EnginesValid,
           PollOutbound;
      h := PolledHolds(s, x, y, g);
      if r.outbound[0].cid == x {
        ReceiveSane(l, r);
        h := OwnDataHolds(s, s.(right := s.right.(manager := PollOutbound(r))), x, y, g, h);
      } else {
        OtherReceived(s, x, y, h);
      }
    }
  }

  lemma LosePaired(l: Manager, r: Manager, n: Manager, x: u16, y: u16, i: nat)
    requires x in l.channels && y in r.channels && Paired(l, r, x, y) && n == l.(outbound := E.Without(l.outbound, i))
    ensures Paired(n, r, x, y)
  {
    hide Proposals, ProposalFor;
    if i < |l.outbound| { ProposalsWithout(l.outbound, i, y); }
  }

  lemma LoseHolds(s: System, x: u16, y: u16, g: Ghost, i: nat) returns (h: Ghost)
    requires Sound(s, x, y, g)
    ensures Sound(s.(left := s.left.(manager := s.left.manager.(outbound := E.Without(s.left.manager.outbound, i)))), x,
                  y, h)
  {
    var l, r := s.left.manager, s.right.manager;
    var n := l.(outbound := E.Without(l.outbound, i));
    hide Linked, PlanOf, Paired;
    LosePaired(l, r, n, x, y, i);
    StillCouple(l, r, n, r, x, y);
    hide Couple;
    var t, fewer := LoseLinked(s, g.t, x, y, PlanOf(l, r, x, y), g.lefts, g.rights, i);
    h := g.(t := t, lefts := fewer);
  }

  /** Any action of the left on a channel that has two ends. */
  lemma ActHolds(s: System, x: u16, y: u16, g: Ghost, a: Action) returns (h: Ghost)
    requires Sane(s.left.manager, s.right.manager) && Sound(s, x, y, g) && Allowed(a)
    ensures EnginesValid(s.left.manager) && Sound(Act(s, x, a), x, y, h)
  {
    SaneEngines(s.left.manager, s.right.manager);
    hide Sane, Sound, EnginesValid;
    match a {
      case Receive => h := ReceiveHolds(s, x, y, g);
      case Lose(i) => h := LoseHolds(s, x, y, g, i);
      case Do(op) =>
        if op.ConnectTo? {
          h := g;
          ConnectHolds(s, x, y, g, op.target, op.spec);
          ConnectIs(s, x, op.target, op.spec);
        } else if op.Elapse? {
          h := ElapseHolds(s, x, y, g, op.ticks);
        } else {
          h := CallHolds(s, x, y, g, op);
        }
    }
  }

  lemma ConnectIs(s: System, x: u16, psm: u32, spec: ChannelSpec)
    requires EnginesValid(s.left.manager)
    ensures Act(s, x, Do(Lifecycle.ConnectTo(psm, spec)))
            == s.(left := s.left.(manager := Connect(s.left.manager, psm, spec).0))
  {
    hide Connect, EnginesValid;
    assert s.left.taken + [] == s.left.taken && s.left.submitted + [] == s.left.submitted;
  }

  // ---------------------------------------------------------------------------
  // Before a channel has two ends
  // ---------------------------------------------------------------------------

  // An end that nobody talks to and nothing was done with, or one still to come.
  predicate Alien(m: Manager, other: Manager, x: u16) {
    && x >= FIRST_CID
    && (x in m.channels ==> Waiting(m, other, x) && m.channels[x].ertm.None? && m.channels[x].received == [])
  }

  predicate SameLog(e: End, f: End) { f.submitted == e.submitted && f.taken == e.taken && f.raised == e.raised }

  // Nothing was done with the channel.
  predicate Idles(e: End, f: End, x: u16) { SameLog(e, f) && KeepsData(e.manager, f.manager, x) }

  lemma {:induction false} NobodyTalks(l: Manager, r: Manager, x: u16)
    requires Talk(l, r) && Alien(l, r, x)
    ensures Unnamed(r, x)
  {
    hide QueueOk;
    forall w <- r.channels ensures r.channels[w].destinationCid != x { assert EndOk(r, l, w); }
  }

  lemma AlienIsClosed(m: Manager, other: Manager, x: u16)
    requires Lifecycle.Inv(m) && Alien(m, other, x)
    ensures x in m.channels ==> m.channels[x].state != Open
  {
    hide Unnamed;
    if x in m.channels { OpenHasEngine(m, x); }
  }

  lemma OwnCallIdles(m: Manager, op: Lifecycle.Operation, x: u16)
    requires EnginesValid(m) && !Introduces(op) && About(op) == x
    requires x in m.channels ==> m.channels[x].state != Open && m.channels[x].ertm.None? && m.channels[x].received == []
    ensures KeepsData(m, Lifecycle.Perform(m, op), x)
  {
    hide EncodeFrame, FreePsm, Ertm.ValidConfig, ValidPsm, ValidSpec;
  }

  lemma CallKeepsAlien(l: Manager, r: Manager, op: Lifecycle.Operation, x: u16)
    requires Sane(l, r) && EnginesValid(l) && Alien(l, r, x) && Allowed(Do(op))
    ensures KeepsData(l, Lifecycle.Perform(l, op), x)
  {
    SaneEngines(l, r);
    AlienIsClosed(l, r, x);
    hide Talk, Lifecycle.Inv, EnginesValid, Tick, Connect, Does, Proper, Unnamed, ValidPsm;
    if x in l.channels {
      if op.ConnectTo? {
        if Connect(l, op.target, op.spec).0 != l {
          var z, id := ConnectDoes(l, op.target, op.spec);
          DoesElsewhere(l, Connect(l, op.target, op.spec).0, z, OutgoingChannel(op.target, z, op.spec),
                        [ConnectionRequest(id, op.target, z)], x);
        }
      } else if op.Elapse? {
        TickKeepsMode(l, 0, op.ticks, x);
      } else if About(op) == x {
        OwnCallIdles(l, op, x);
      } else {
        hide Lifecycle.Perform;
        CallMurmurs(l, op);
      }
    }
  }

  lemma DoesElsewhere(m: Manager, n: Manager, z: u16, c: Channel, frames: seq<ControlFrame>, x: u16)
    requires Does(m, n, z, c, frames) && x in m.channels && z != x
    ensures x in n.channels && n.channels[x] == m.channels[x]
  {
    hide Signals;
  }

  lemma CallIdles(s: System, x: u16, op: Lifecycle.Operation)
    requires Sane(s.left.manager, s.right.manager) && EnginesValid(s.left.manager) && Allowed(Do(op))
    requires Alien(s.left.manager, s.right.manager, x)
    ensures Idles(s.left, Act(s, x, Do(op)).left, x)
  {
    CallKeepsAlien(s.left.manager, s.right.manager, op, x);
    AlienIsClosed(s.left.manager, s.right.manager, x);
    hide Talk, Lifecycle.Inv, EnginesValid, Lifecycle.Perform, KeepsData, Unnamed;
    assert s.left.taken + [] == s.left.taken && s.left.submitted + [] == s.left.submitted;
  }

  lemma SignalKeepsAlien(l: Manager, r: Manager, f: ControlFrame, x: u16)
    requires Unnamed(r, x) && FrameOk(f, r, l)
    ensures KeepsData(l, ProcessControl(l, f).manager, x)
  {
    hide ProcessControl, OnConnectionRequest, OnConnectionResponse, OnConfigureRequest, FreeCid, ProposalFrame,
         DecodeOptions, Proposal;
    var n := ProcessControl(l, f).manager;
    if x in l.channels {
      if Plain(l, f) {
        PlainNods(l, f);
        assert x == Addressee(f) || n.channels[x] == l.channels[x];
      } else if f.ConfigureRequest? {
        ControlIs(l, f);
        assert f.destinationCid != x;
        ProposalMurmurs(l, f.identifier, f.destinationCid, f.flags, f.options);
      } else if f.ConnectionRequest? {
        RequestTaken(l, f.identifier, f.psm, f.sourceCid);
      } else {
        ResponseIs(l, f);
        assert f.sourceCid != x;
        ResponseTaken(l, f.identifier, f.destinationCid, f.sourceCid);
      }
    }
  }

  lemma PduKeepsAlien(l: Manager, r: Manager, p: Pdu, x: u16)
    requires Proper(l) && x >= FIRST_CID && Unnamed(r, x) && PduOk(p, r, l)
    ensures p.cid != x && KeepsData(l, ProcessPdu(l, p).manager, x)
  {
    hide DecodeFrame, ProcessControl, Proper, FrameOk;
    if p.cid != SIGNALING_CID {
      hide ProcessPdu;
      DataMurmurs(l, p);
    } else if DecodeFrame(p.payload).Success? {
      SignalKeepsAlien(l, r, DecodeFrame(p.payload).value, x);
    }
  }

  /** Whatever the left does, an end nobody talks to stays as it is. */
  lemma ActIdles(s: System, x: u16, a: Action)
    requires Sane(s.left.manager, s.right.manager) && EnginesValid(s.left.manager) && Allowed(a)
    requires Alien(s.left.manager, s.right.manager, x)
    ensures Idles(s.left, Act(s, x, a).left, x)
  {
    var l, r := s.left.manager, s.right.manager;
    match a
    case Do(op) =>
      hide Sane, EnginesValid, Act, Alien, Idles;
      CallIdles(s, x, op);
    case Lose(i) => hide Sane, EnginesValid, Alien;
    case Receive =>
      if r.outbound != [] {
        NobodyTalks(l, r, x);
        TalkProper(l, r);
        assert PduOk(r.outbound[0], r, l);
        hide Talk, Lifecycle.Inv, EnginesValid, ProcessPdu, Proper, PduOk, Unnamed;
        PduKeepsAlien(l, r, r.outbound[0], x);
        OtherArrives(s, x);
      } else {
        hide Sane, EnginesValid, Alien;
      }
  }

  // ---------------------------------------------------------------------------
  // Who the ends are after a step
  // ---------------------------------------------------------------------------

  // Every end is still there and names whom it named; a new one has nothing yet.
  predicate Grows(l: Manager, n: Manager) {
    && (forall z <- l.channels ::
          && z in n.channels && n.channels[z].incoming == l.channels[z].incoming
             && n.channels[z].spec == l.channels[z].spec
          && (n.channels[z].destinationCid != l.channels[z].destinationCid ==>
              !l.channels[z].incoming && l.channels[z].destinationCid == 0))
    && (forall z <- n.channels :: z in l.channels || Blank(n.channels[z]))
  }

  predicate Blank(c: Channel) { c.ertm.None? && c.received == [] }

  // Every new end has asked for a connection.
  predicate NoneAccepted(l: Manager, n: Manager) {
    forall z <- n.channels :: z in l.channels || !n.channels[z].incoming
  }

  // The PDU is a request that the manager accepts.
  predicate Accepting(m: Manager, p: Pdu) {
    && p.cid == SIGNALING_CID
    && var f := DecodeFrame(p.payload);
    && f.Success? && f.value.ConnectionRequest? && f.value.psm in m.servers && FreeCid(m.channels, FIRST_CID).Some?
  }

  lemma QuietGrows(l: Manager, n: Manager)
    requires Quiet(l, n)
    ensures Grows(l, n) && NoneAccepted(l, n)
  {
    hide Minor, Names;
  }

  lemma ConnectGrows(l: Manager, psm: u32, spec: ChannelSpec)
    ensures Grows(l, Connect(l, psm, spec).0) && NoneAccepted(l, Connect(l, psm, spec).0)
  {
    hide Connect, ValidPsm, Signals;
    if Connect(l, psm, spec).0 != l { var z, id := ConnectDoes(l, psm, spec); }
  }

  lemma CallGrows(l: Manager, r: Manager, op: Lifecycle.Operation)
    requires Sane(l, r) && EnginesValid(l) && Allowed(Do(op))
    ensures Grows(l, Lifecycle.Perform(l, op)) && NoneAccepted(l, Lifecycle.Perform(l, op))
  {
    TalkProper(l, r);
    hide Talk, Lifecycle.Inv, EnginesValid, Tick, Connect, Proper, Quiet, Murmurs, Grows, NoneAccepted;
    if op.ConnectTo? {
      ConnectGrows(l, op.target, op.spec);
    } else if op.Elapse? {
      TickQuiet(l, 0, op.ticks);
      QuietGrows(l, Tick(l, 0, op.ticks).manager);
    } else {
      hide Lifecycle.Perform;
      CallMurmurs(l, op);
      MurmursQuiet(l, Lifecycle.Perform(l, op), About(op));
      QuietGrows(l, Lifecycle.Perform(l, op));
    }
  }

  lemma SignalGrows(l: Manager, r: Manager, f: ControlFrame)
    requires Talk(l, r) && FrameOk(f, r, l)
    ensures Grows(l, ProcessControl(l, f).manager)
    ensures NoneAccepted(l, ProcessControl(l, f).manager)
            || (f.ConnectionRequest? && f.psm in l.servers && FreeCid(l.channels, FIRST_CID).Some?)
  {
    hide ProcessControl, OnConnectionRequest, OnConnectionResponse, OnConfigureRequest, FreeCid, ProposalFrame,
         DecodeOptions, Proposal, Quiet, Murmurs, Ends, QueueOk, Signals;
    var n := ProcessControl(l, f).manager;
    if Plain(l, f) {
      PlainNods(l, f);
      MurmursQuiet(l, n, Addressee(f));
      QuietGrows(l, n);
    } else if f.ConfigureRequest? {
      ControlIs(l, f);
      ProposalMurmurs(l, f.identifier, f.destinationCid, f.flags, f.options);
      MurmursQuiet(l, n, f.destinationCid);
      QuietGrows(l, n);
    } else if f.ConnectionRequest? {
      RequestTaken(l, f.identifier, f.psm, f.sourceCid);
    } else {
      ResponseIs(l, f);
      ResponseTaken(l, f.identifier, f.destinationCid, f.sourceCid);
      AcceptedRequester(l, r, f.destinationCid, f.sourceCid);
    }
  }

  lemma AcceptedRequester(l: Manager, r: Manager, u: u16, w: u16)
    requires Talk(l, r) && Accepts(r, u, w) && w in l.channels
    ensures !l.channels[w].incoming && l.channels[w].destinationCid in {0, u}
  {
    hide QueueOk;
    assert EndOk(r, l, u) && EndOk(l, r, w);
  }

  lemma PduGrows(l: Manager, r: Manager, p: Pdu)
    requires Talk(l, r) && PduOk(p, r, l)
    ensures Grows(l, ProcessPdu(l, p).manager)
    ensures Accepting(l, p) || NoneAccepted(l, ProcessPdu(l, p).manager)
  {
    TalkProper(l, r);
    hide Talk, DecodeFrame, ProcessControl, Proper, FrameOk, Quiet, Murmurs, FreeCid;
    if p.cid != SIGNALING_CID {
      hide ProcessPdu;
      DataMurmurs(l, p);
      MurmursQuiet(l, ProcessPdu(l, p).manager, p.cid);
      QuietGrows(l, ProcessPdu(l, p).manager);
    } else if DecodeFrame(p.payload).Success? {
      SignalGrows(l, r, DecodeFrame(p.payload).value);
    }
  }

  // Two ends are a couple only if they were, or if the left has just accepted the right's request.
  lemma GrowsCouple(l: Manager, r: Manager, n: Manager, o: Manager, x: u16, y: u16)
    requires Talk(l, r) && Grows(l, n) && o.channels == r.channels && Couple(n, o, x, y)
    ensures || (Couple(l, r, x, y) && n.channels[x].spec == l.channels[x].spec)
            || (x !in l.channels && Accepts(n, x, y) && y in r.channels)
  {
    hide QueueOk;
    if Partners(n, o, x, y) { assert EndOk(r, l, y); }
  }

  lemma GrowsUnspoilt(l: Manager, r: Manager, n: Manager, e: End, f: End, y: u16)
    requires Talk(l, r) && Grows(l, n) && e.manager == r && Unspoilt(e, l, y)
    requires SameLog(e, f) && f.manager.channels == r.channels
    ensures Unspoilt(f, n, y)
  {
    hide QueueOk;
    if Waiting(f.manager, n, y) {
      forall z <- l.channels ensures l.channels[z].destinationCid != y { assert n.channels[z].destinationCid != y; }
    }
  }

  // The left's own end, before it has a partner.
  lemma OwnUnspoilt(s: System, u: System, x: u16)
    requires Unspoilt(s.left, s.right.manager, x) && Lifecycle.Inv(u.left.manager)
             && Grows(s.left.manager, u.left.manager)
    requires u.right.manager.channels == s.right.manager.channels
    requires Alien(s.left.manager, s.right.manager, x) ==> Idles(s.left, u.left, x)
    ensures Unspoilt(u.left, u.right.manager, x)
  {
    var n := u.left.manager;
    if x in n.channels { assert Lifecycle.ChannelOk(x, n.channels[x]); }
    hide Lifecycle.Inv;
  }

  // ---------------------------------------------------------------------------
  // A channel gets its second end
  // ---------------------------------------------------------------------------

  // An end with nothing to show for yet.
  lemma BlankStands(e: End, x: u16, y: u16, plan: Plan)
    requires x in e.manager.channels && y >= FIRST_CID && EnginesValid(e.manager) && NoneFor(e.manager.outbound, y)
             && Untouched(e)
    requires Blank(e.manager.channels[x]) && e.manager.channels[x].state != Open
    ensures Stands(e, E.Side(Ertm.Fresh(plan.own), [], [], []), x, y, plan, [])
  {
    NoFrames(e.manager.outbound, y, plan.fcs);
    hide EnginesValid, FramesTo;
    assert Lift(Ertm.Fresh(plan.own), Front([], [], [])) == Ertm.Fresh(plan.own);
  }

  lemma NothingQueued(l: Manager, r: Manager, y: u16)
    requires QueueOk(l, r) && y >= FIRST_CID && Unnamed(l, y)
    ensures NoneFor(l.outbound, y) && Proposals(l.outbound, y) == 0
  {
    NothingProposed(l, r, y);
    hide FrameOk, DecodeFrame;
    forall i | 0 <= i < |l.outbound| ensures l.outbound[i].cid != y { assert PduOk(l.outbound[i], l, r); }
  }

  lemma PlansFit(l: Manager, r: Manager, x: u16, y: u16)
    requires Sane(l, r) && Couple(l, r, x, y) && BothEnhanced(l, r, x, y)
    ensures E.Compatible(PlanOf(l, r, x, y).own, PlanOf(l, r, x, y).other)
  {
    SaneSpecs(l, r, x, y);
    hide Talk, Lifecycle.Inv;
  }

  // What accepting the request of `y` makes of the left manager.
  lemma AcceptanceIs(l: Manager, r: Manager, p: Pdu, x: u16, y: u16) returns (id: byte, next: byte, psm: u32)
    requires PduOk(p, r, l) && Accepting(l, p) && x !in l.channels && Accepts(ProcessPdu(l, p).manager, x, y)
    ensures var n := ProcessPdu(l, p).manager;
            && Requester(p) == Some(y) && Requests(r, l, y) && x >= FIRST_CID && psm in l.servers
            && Does(l, n, x, IncomingChannel(psm, x, y, l.servers[psm]),
                    [ConnectionResponse(id, x, y, SUCCESS, 0), ProposalFrame(next, y, l.servers[psm])])
  {
    hide DecodeFrame, ProcessControl, FreeCid, ProposalFrame, Signals, Requests;
    var f := DecodeFrame(p.payload).value;
    RequestTaken(l, f.identifier, f.psm, f.sourceCid);
    id, next, psm := f.identifier, NextIdentifier(l.identifier), f.psm;
  }

  lemma AcceptedNone(l: Manager, n: Manager, x: u16, y: u16, c: Channel, frames: seq<ControlFrame>)
    requires Does(l, n, x, c, frames) && NoneFor(l.outbound, y) && y >= FIRST_CID
    ensures NoneFor(n.outbound, y)
  {
    hide EncodeFrame;
    forall i | 0 <= i < |n.outbound| ensures n.outbound[i].cid != y {
      if i >= |l.outbound| { assert n.outbound[i] == Signals(frames)[i - |l.outbound|]; }
    }
  }

  lemma PolledNone(m: Manager, x: u16)
    requires NoneFor(m.outbound, x) && Proposals(m.outbound, x) == 0
    ensures NoneFor(PollOutbound(m).outbound, x) && Proposals(PollOutbound(m).outbound, x) == 0
  {
    hide ProposalFor;
  }

  // The right, whose request the left accepted, has been waiting.
  lemma RequesterStands(e: End, l: Manager, x: u16, y: u16, plan: Plan)
    requires Talk(l, e.manager) && Lifecycle.Inv(e.manager) && Unspoilt(e, l, y) && Requests(e.manager, l, y)
    requires e.manager.channels[y].spec.Enhanced? && x !in l.channels && x >= FIRST_CID
    ensures var o := e.(manager := PollOutbound(e.manager));
            && Stands(o, E.Side(Ertm.Fresh(plan.own), [], [], []), y, x, plan, []) && o.manager.channels[y].ertm.None?
            && Proposals(o.manager.outbound, x) == 0
  {
    var r := e.manager;
    assert Waiting(r, l, y);
    assert Alien(l, r, x);
    NobodyTalks(l, r, x);
    NothingQueued(r, l, x);
    PolledNone(r, x);
    OpenHasEngine(r, y);
    InvEngines(r);
    hide Talk, Lifecycle.Inv, Stands, Ertm.ValidConfig, Proposals, NoneFor, Unnamed;
    BlankStands(e.(manager := PollOutbound(r)), y, x, plan);
  }

  lemma AcceptorStands(e: End, n: Manager, r: Manager, x: u16, y: u16, plan: Plan, id: byte, next: byte, psm: u32)
    requires Talk(e.manager, r) && EnginesValid(n) && Untouched(e) && Requests(r, e.manager, y)
             && psm in e.manager.servers
    requires Does(e.manager, n, x, IncomingChannel(psm, x, y, e.manager.servers[psm]),
                  [ConnectionResponse(id, x, y, SUCCESS, 0), ProposalFrame(next, y, e.manager.servers[psm])])
    ensures Stands(e.(manager := n), E.Side(Ertm.Fresh(plan.own), [], [], []), x, y, plan, []) && y >= FIRST_CID
    ensures Proposals(n.outbound, y) == 1
  {
    var l, c := e.manager, IncomingChannel(psm, x, y, e.manager.servers[psm]);
    var frames := [ConnectionResponse(id, x, y, SUCCESS, 0), ProposalFrame(next, y, l.servers[psm])];
    NothingQueued(l, r, y);
    AcceptanceProposes(l, n, id, next, x, y, c, l.servers[psm], y);
    hide Talk, EnginesValid, Stands, NoneFor, Proposals, ProposalFrame, Signals;
    AcceptedNone(l, n, x, y, c, frames);
    BlankStands(e.(manager := n), x, y, plan);
  }

  // Two ends that stand for two fresh engines.
  lemma FreshSound(u: System, x: u16, y: u16) returns (h: Ghost)
    requires Sane(u.left.manager, u.right.manager)
    requires Couple(u.left.manager, u.right.manager, x, y) && BothEnhanced(u.left.manager, u.right.manager, x, y)
    requires var plan := PlanOf(u.left.manager, u.right.manager, x, y);
             && Stands(u.left, E.Side(Ertm.Fresh(plan.own), [], [], []), x, y, plan, [])
             && Stands(u.right, E.Side(Ertm.Fresh(plan.other), [], [], []), y, x, Turned(plan), [])
    requires Paired(u.left.manager, u.right.manager, x, y)
    ensures Sound(u, x, y, h)
  {
    hide Sane, Couple, PlanOf, Stands, Paired, E.Inv, E.Compatible;
    PlansFit(u.left.manager, u.right.manager, x, y);
    var plan := PlanOf(u.left.manager, u.right.manager, x, y);
    E.BeginHolds(plan.own, plan.other);
    h := Ghost(E.Begin(plan.own, plan.other), [], []);
  }

  lemma PairedUp(s: System, n: Manager, x: u16, y: u16, id: byte, next: byte, psm: u32) returns (h: Ghost)
    requires var l, r := s.left.manager, s.right.manager;
             && Sane(l, r) && Sane(n, PollOutbound(r)) && Unspoilt(s.left, r, x) && Unspoilt(s.right, l, y)
             && x !in l.channels && x >= FIRST_CID && psm in l.servers && l.servers[psm].Enhanced?
             && Requests(r, l, y) && r.channels[y].spec.Enhanced?
             && Does(l, n, x, IncomingChannel(psm, x, y, l.servers[psm]),
                     [ConnectionResponse(id, x, y, SUCCESS, 0), ProposalFrame(next, y, l.servers[psm])])
    ensures Sound(System(s.left.(manager := n), s.right.(manager := PollOutbound(s.right.manager))), x, y, h)
  {
    var l, r, o := s.left.manager, s.right.manager, PollOutbound(s.right.manager);
    PolledChannels(r);
    hide PollOutbound, Stands, EnginesValid, ProposalFrame, Signals, Talk, Lifecycle.Inv, Proposals, Unnamed, Sound,
         EngineConfigFor, Offered;
    InvEngines(n);
    var plan := PlanOf(n, o, x, y);
    AcceptorStands(s.left, n, r, x, y, plan, id, next, psm);
    RequesterStands(s.right, l, x, y, Turned(plan));
    h := FreshSound(System(s.left.(manager := n), s.right.(manager := o)), x, y);
  }

  /** The left accepts the right's request: from here on the two ends stand for two fresh engines. */
  lemma PairUp(s: System, x: u16, y: u16) returns (h: Ghost)
    requires var l, r := s.left.manager, s.right.manager;
             && Sane(l, r) && EnginesValid(l) && Unspoilt(s.left, r, x) && Unspoilt(s.right, l, y) && r.outbound != []
             && Accepting(l, r.outbound[0]) && x !in l.channels
             && Accepts(ProcessPdu(l, r.outbound[0]).manager, x, y)
             && ProcessPdu(l, r.outbound[0]).manager.channels[x].spec.Enhanced? && y in r.channels
                && r.channels[y].spec.Enhanced?
    ensures Sound(Act(s, x, Receive), x, y, h)
  {
    var l, r, p := s.left.manager, s.right.manager, s.right.manager.outbound[0];
    assert PduOk(p, r, l);
    hide Act, ProcessPdu, PollOutbound, PduOk, Lifecycle.Evolves, EnginesValid, ProposalFrame, Signals, Talk,
         Lifecycle.Inv, Sound, Unspoilt, Requests;
    ReceiveSane(l, r);
    var id, next, psm := AcceptanceIs(l, r, p, x, y);
    assert p.cid == SIGNALING_CID < x;
    OtherArrives(s, x);
    h := PairedUp(s, ProcessPdu(l, p).manager, x, y, id, next, psm);
  }

  // ---------------------------------------------------------------------------
  // Every run
  // ---------------------------------------------------------------------------

  predicate Requested(s: System, a: Action) {
    a.Receive? && s.right.manager.outbound != [] && Accepting(s.left.manager, s.right.manager.outbound[0])
  }

  lemma ActSane(s: System, x: u16, a: Action)
    requires Sane(s.left.manager, s.right.manager) && EnginesValid(s.left.manager) && Allowed(a)
    ensures var u := Act(s, x, a);
            && Sane(u.left.manager, u.right.manager) && u.right.manager.channels == s.right.manager.channels
               && SameLog(s.right, u.right)
            && Grows(s.left.manager, u.left.manager)
            && (NoneAccepted(s.left.manager, u.left.manager) || Requested(s, a))
  {
    var l, r := s.left.manager, s.right.manager;
    match a
    case Do(op) =>
      hide EnginesValid, Lifecycle.Perform, Talk, Lifecycle.Inv, Grows, NoneAccepted, Lifecycle.Evolves;
      CallSane(l, r, op);
      CallGrows(l, r, op);
    case Lose(i) =>
      hide EnginesValid, Sane;
      LoseSane(l, r, i);
    case Receive =>
      if r.outbound != [] {
        assert PduOk(r.outbound[0], r, l);
        hide EnginesValid, ProcessPdu, Talk, Lifecycle.Inv, Grows, NoneAccepted, Lifecycle.Evolves, PduOk, Accepting;
        ReceiveSane(l, r);
        PduGrows(l, r, r.outbound[0]);
      } else {
        hide EnginesValid, Sane;
      }
  }

  lemma CoupleStep(s: System, u: System, x: u16, y: u16, g: Ghost, a: Action) returns (h: Ghost)
    requires Inv(s, x, y, g) && Allowed(a) && EnginesValid(s.left.manager) && u == Act(s, x, a)
    requires u.right.manager.channels == s.right.manager.channels && Grows(s.left.manager, u.left.manager)
    requires NoneAccepted(s.left.manager, u.left.manager) || Requested(s, a)
    ensures CoupleHolds(u, x, y, h)
  {
    var l, r, n, o := s.left.manager, s.right.manager, u.left.manager, u.right.manager;
    hide Talk, Lifecycle.Inv, EnginesValid, Unspoilt, Grows, Holds, Accepting;
    h := g;
    if Couple(n, o, x, y) && BothEnhanced(n, o, x, y) {
      GrowsCouple(l, r, n, o, x, y);
      if Couple(l, r, x, y) {
        hide Act;
        h := ActHolds(s, x, y, g, a);
      } else {
        h := PairUp(s, x, y);
      }
    }
  }

  /** Whatever the left does. */
  lemma ActInv(s: System, x: u16, y: u16, g: Ghost, a: Action) returns (h: Ghost)
    requires Inv(s, x, y, g) && Allowed(a)
    ensures EnginesValid(s.left.manager) && Inv(Act(s, x, a), x, y, h)
  {
    var l, r := s.left.manager, s.right.manager;
    SaneEngines(l, r);
    hide Act, Talk, Lifecycle.Inv, EnginesValid, Unspoilt, Grows, NoneAccepted, Requested, CoupleHolds, Alien, Idles,
         SameLog;
    var u := Act(s, x, a);
    ActSane(s, x, a);
    if Alien(l, r, x) { ActIdles(s, x, a); }
    OwnUnspoilt(s, u, x);
    GrowsUnspoilt(l, r, u.left.manager, s.right, u.right, y);
    h := CoupleStep(s, u, x, y, g, a);
  }

  function Apply(s: System, x: u16, y: u16, move: Move): System
    requires EnginesValid(s.left.manager) && EnginesValid(s.right.manager)
  {
    if move.byLeft then Act(s, x, move.action) else Swap(Act(Swap(s), y, move.action))
  }

  ghost predicate Run(states: seq<System>, moves: seq<Move>, x: u16, y: u16) {
    && |states| == |moves| + 1
    && forall i :: 0 <= i < |moves| ==>
         && EnginesValid(states[i].left.manager) && EnginesValid(states[i].right.manager)
         && states[i + 1] == Apply(states[i], x, y, moves[i])
  }

  // Two managers that have just been made.
  predicate Made(s: System) {
    && s.left == End(New(s.left.manager.information), [], [], [])
    && s.right == End(New(s.right.manager.information), [], [], [])
  }

  lemma MadeInv(s: System, x: u16, y: u16, g: Ghost)
    requires Made(s)
    ensures Inv(s, x, y, g)
  {
  }

  lemma MoveInv(s: System, x: u16, y: u16, g: Ghost, move: Move) returns (h: Ghost)
    requires Inv(s, x, y, g) && Allowed(move.action)
    ensures EnginesValid(s.left.manager) && EnginesValid(s.right.manager) && Inv(Apply(s, x, y, move), x, y, h)
  {
    SaneEngines(s.left.manager, s.right.manager);
    hide Inv, Act, EnginesValid, Allowed;
    if move.byLeft {
      h := ActInv(s, x, y, g, move.action);
    } else {
      InvBack(s, x, y, g);
      h := ActInv(Swap(s), y, x, Back(g), move.action);
      InvBack(Act(Swap(s), y, move.action), y, x, h);
      h := Back(h);
    }
  }

  lemma {:induction false} RunInv(states: seq<System>, moves: seq<Move>, x: u16, y: u16, n: nat) returns (g: Ghost)
    requires Run(states, moves, x, y) && Made(states[0]) && n < |states|
             && forall move <- moves[..n] :: Allowed(move.action)
    ensures Inv(states[n], x, y, g)
  {
    hide Inv, Apply, EnginesValid, Allowed;
    if n == 0 {
      g := Ghost(E.Begin(Ertm.Config(1, 1, 1, 1, 1, 1, 1), Ertm.Config(1, 1, 1, 1, 1, 1, 1)), [], []);
      MadeInv(states[0], x, y, g);
    } else {
      assert moves[..n][n - 1] == moves[n - 1];
      assert forall move <- moves[..n - 1] :: move in moves[..n];
      g := RunInv(states, moves, x, y, n - 1);
      g := MoveInv(states[n - 1], x, y, g, moves[n - 1]);
      assert states[n - 1 + 1] == Apply(states[n - 1], x, y, moves[n - 1]);
    }
  }

  /** Every schedule of calls, deliveries and losses is a run. */
  lemma {:induction false} EveryScheduleRuns(s: System, moves: seq<Move>, x: u16, y: u16) returns (states: seq<System>)
    requires Made(s) && forall move <- moves :: Allowed(move.action)
    ensures Run(states, moves, x, y) && states[0] == s
    decreases |moves|
  {
    hide Made, Apply, Inv, EnginesValid, Allowed;
    if moves == [] {
      states := [s];
    } else {
      var k := |moves| - 1;
      var before := EveryScheduleRuns(s, moves[..k], x, y);
      assert moves[..k][..k] == moves[..k];
      var g := RunInv(before, moves[..k], x, y, k);
      var h := MoveInv(before[k], x, y, g, moves[k]);
      states := before + [Apply(before[k], x, y, moves[k])];
      forall i | 0 <= i < |moves|
        ensures EnginesValid(states[i].left.manager) && EnginesValid(states[i].right.manager)
        ensures states[i + 1] == Apply(states[i], x, y, moves[i])
      {
        if i < k { assert moves[..k][i] == moves[i] && before[i + 1] == Apply(before[i], x, y, moves[..k][i]); }
      }
    }
  }

  // Everything of the channel `x` that its application has taken or could take.
  function Delivered(e: End, x: u16): seq<seq<byte>>
    requires x in e.manager.channels
  {
    e.taken + e.manager.channels[x].received
  }

  lemma DeliveredIsPrefix(s: System, x: u16, y: u16, g: Ghost, plan: Plan)
    requires Linked(s, g.t, x, y, plan, g.lefts, g.rights)
    ensures x in s.left.manager.channels && Delivered(s.left, x) <= s.right.submitted
    ensures forall error <- s.left.raised :: Tolerable(error)
  {
    hide FramesTo, EnginesValid, E.Half, Readable, Tagged;
    E.DeliveredIsPrefix(g.t.right, g.t.left);
    var c, engine := s.left.manager.channels[x], EngineOf(s.left.manager, x, plan);
    assert s.left.taken + (c.received + engine.received) == Delivered(s.left, x) + engine.received;
  }

  /**
    * Two managers, from the moment they are made, in every run over links that lose PDUs: channels are opened from
    * either side, used and closed by any calls in any order. For two ends of a channel in the enhanced mode, open or
    * not, each application has a prefix of what the other has submitted, and the PDUs of the channel have raised no
    * error but the engine's limits, a frame too large for the check sequence, or that the channel is not open.
    */
  lemma EnhancedChannelIsSafe(states: seq<System>, moves: seq<Move>, x: u16, y: u16, n: nat)
    requires Run(states, moves, x, y) && Made(states[0]) && n < |states|
             && forall move <- moves[..n] :: Allowed(move.action)
    requires var l, r := states[n].left.manager, states[n].right.manager; Couple(l, r, x, y) && BothEnhanced(l, r, x, y)
    ensures var l, r := states[n].left, states[n].right;
            && Delivered(l, x) <= r.submitted && Delivered(r, y) <= l.submitted
            && forall error <- l.raised + r.raised :: Tolerable(error)
  {
    hide Run, Made, Linked, Delivered, Tolerable, Allowed, Sane, Unspoilt, Couple, PlanOf, Paired;
    var g := RunInv(states, moves, x, y, n);
    var s := states[n];
    var plan := PlanOf(s.left.manager, s.right.manager, x, y);
    DeliveredIsPrefix(s, x, y, g, plan);
    LinkedBack(s, g.t, x, y, plan, g.lefts, g.rights);
    DeliveredIsPrefix(Swap(s), y, x, Back(g), Turned(plan));
  }
}
