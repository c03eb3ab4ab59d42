/**
  * Opening a channel, in every order: two managers over links that lose nothing, under
  * any calls on any channels. Once everything they have said has arrived, every request
  * has been answered, and a channel whose ends agree is open at both.
  */
module ChannelOpening {
  import opened Bytes
  import opened Signaling
  import opened Channels
  import opened ChannelAgreement
  import Lifecycle = ChannelLifecycle
  import Fcs
  import Ertm
  import opened Conversation
  import opened EnhancedLink
  import opened EnhancedSafety

  // ---------------------------------------------------------------------------
  // Signaling for one end
  // ---------------------------------------------------------------------------

  // The PDU is signaling for the end `to`.
  predicate For(p: Pdu, to: u16) {
    && p.cid == SIGNALING_CID
    && var f := DecodeFrame(p.payload);
    f.Success? && Addressee(f.value) == to
  }

  /** Whatever the wire does to a frame, it reaches the end it is for or nobody. */
  lemma AddressReads(f: ControlFrame)
    requires !f.Generic?
    ensures DecodeFrame(EncodeFrame(f)).Success? ==> Addressee(DecodeFrame(EncodeFrame(f)).value) == Addressee(f)
  {
    hide Payload, Le16At, DecodePsm, ReadWords, DecodeFrame, EncodeFrame;
    WireReads(f);
    EncodedCode(f);
    FieldsInPlace(f);
    var p, w, q := Payload(f), Fields(f), ReadBack(f);
    WordKept(p, |q|, 0);
    WordKept(p, |q|, 2);
    assert |w| > 0 ==> Le16At(p, 2 * 0) == w[0];
    assert |w| > 1 ==> Le16At(p, 2 * 1) == w[1];
  }

  lemma WordKept(p: seq<byte>, k: nat, i: nat)
    requires k <= |p|
    ensures i + 2 <= k ==> Le16At(p[..k], i) == Le16At(p, i)
  {
  }

  datatype Letter = Answer | Offer | Assent | Other

  function LetterOf(f: ControlFrame): Letter {
    match f
    case ConnectionResponse(_, _, _, result, _) => if result == SUCCESS then Answer else Other
    case ConfigureRequest(_, _, _, _) => Offer
    case ConfigureResponse(_, _, _, result, _) => if result == SUCCESS then Assent else Other
    case _ => Other
  }

  // The signaling on its way to the end `to`.
  function Mail(queue: seq<Pdu>, to: u16): seq<Letter> {
    if queue == [] then []
    else (if For(queue[0], to) then [LetterOf(DecodeFrame(queue[0].payload).value)] else []) + Mail(queue[1..], to)
  }

  lemma {:induction false} MailConcat(p: seq<Pdu>, q: seq<Pdu>, to: u16)
    ensures Mail(p + q, to) == Mail(p, to) + Mail(q, to)
  {
    hide DecodeFrame, LetterOf;
    if p == [] {
      assert p + q == q;
    } else {
      assert (p + q)[0] == p[0] && (p + q)[1..] == p[1..] + q;
      MailConcat(p[1..], q, to);
      var first := if For(p[0], to) then [LetterOf(DecodeFrame(p[0].payload).value)] else [];
      JoinMail(first, Mail(p[1..], to), Mail(q, to));
    }
  }

  lemma JoinMail(a: seq<Letter>, b: seq<Letter>, c: seq<Letter>)
    ensures a + (b + c) == a + b + c
  {
  }

  lemma {:induction false} NoMail(queue: seq<Pdu>, to: u16)
    requires forall i :: 0 <= i < |queue| ==> !For(queue[i], to)
    ensures Mail(queue, to) == []
  {
    hide For, LetterOf;
    if queue != [] { NoMail(queue[1..], to); }
  }

  // ---------------------------------------------------------------------------
  // Steps that say nothing to one end
  // ---------------------------------------------------------------------------

  // From `m` to `n` nothing was said to `to`.
  predicate Silent(m: Manager, n: Manager, to: u16) {
    && |m.outbound| <= |n.outbound| && n.outbound[..|m.outbound|] == m.outbound
    && forall i :: |m.outbound| <= i < |n.outbound| ==> !For(n.outbound[i], to)
  }

  lemma SilentMail(m: Manager, n: Manager, to: u16)
    requires Silent(m, n, to)
    ensures Mail(n.outbound, to) == Mail(m.outbound, to)
  {
    hide For, Mail;
    var more := n.outbound[|m.outbound|..];
    assert n.outbound == m.outbound + more;
    forall i | 0 <= i < |more| ensures !For(more[i], to) { assert more[i] == n.outbound[|m.outbound| + i]; }
    MailConcat(m.outbound, more, to);
    NoMail(more, to);
    assert Mail(m.outbound, to) + [] == Mail(m.outbound, to);
  }

  lemma SilentTwice(m: Manager, n: Manager, o: Manager, to: u16)
    requires Silent(m, n, to) && Silent(n, o, to)
    ensures Silent(m, o, to)
  {
    hide For;
    assert o.outbound[..|m.outbound|] == o.outbound[..|n.outbound|][..|m.outbound|];
    forall i | |m.outbound| <= i < |o.outbound| ensures !For(o.outbound[i], to) {
      if i < |n.outbound| { assert o.outbound[i] == o.outbound[..|n.outbound|][i] == n.outbound[i]; }
    }
  }

  lemma SilentSignal(m: Manager, n: Manager, f: ControlFrame, to: u16)
    requires Silent(m, n, to) && !f.Generic? && Addressee(f) != to
    ensures Silent(m, QueueControl(n, f), to)
  {
    AddressReads(f);
    hide EncodeFrame, DecodeFrame, Addressee;
  }

  lemma {:induction false} SilentSignals(m: Manager, n: Manager, frames: seq<ControlFrame>, to: u16)
    requires |m.outbound| <= |n.outbound| && n.outbound == m.outbound + Signals(frames)
    requires forall f <- frames :: !f.Generic? && Addressee(f) != to
    ensures Silent(m, n, to)
  {
    hide EncodeFrame, DecodeFrame, Addressee;
    forall i | |m.outbound| <= i < |n.outbound| ensures !For(n.outbound[i], to) {
      var f := frames[i - |m.outbound|];
      assert n.outbound[i] == Signals(frames)[i - |m.outbound|] == Signal(f);
      AddressReads(f);
    }
  }

  lemma {:induction false} FramesSilent(m: Manager, n: Manager, z: u16, fcs: bool, frames: seq<seq<byte>>, to: u16)
    requires Silent(m, n, to) && z != SIGNALING_CID
    ensures Silent(m, QueueFrames(n, z, fcs, frames).manager, to)
    decreases |frames|
  {
    hide Fcs.AppendFcs, DecodeFrame;
    if frames != [] {
      var payload := if fcs then Fcs.AppendFcs(z, frames[0]) else Success(frames[0]);
      if payload.Success? {
        FramesSilent(m, n.(outbound := n.outbound + [Pdu(z, payload.value)]), z, fcs, frames[1..], to);
      }
    }
  }

  lemma EngineSilent(m: Manager, z: u16, step: Ertm.Step, to: u16)
    requires z in m.channels && m.channels[z].destinationCid != SIGNALING_CID
    ensures Silent(m, AfterEngine(m, z, step).manager, to)
  {
    hide QueueFrames, For;
    var c, e := m.channels[z], step.engine;
    var d := c.(ertm := Some(Drained(e)), received := c.received + e.received);
    var n := m.(channels := m.channels[z := c.(ertm := Some(e))][z := d]);
    FramesSilent(m, n, c.destinationCid, c.fcsEnabled, e.outbound, to);
  }

  lemma {:induction false} TickSilent(m: Manager, cid: nat, ticks: u32, to: u16)
    requires Proper(m) && cid <= 0x1_0000
    ensures Silent(m, Tick(m, cid, ticks).manager, to)
    decreases 0x1_0000 - cid
  {
    hide AfterEngine, Ertm.Tick, For, Murmurs, Quiet;
    if cid <= 0xFFFF {
      if cid in m.channels && m.channels[cid].ertm.Some? {
        var step := Ertm.Tick(m.channels[cid].ertm.value, ticks);
        var n := AfterEngine(m, cid, step).manager;
        EngineSilent(m, cid, step, to);
        EngineMurmurs(m, cid, step);
        MurmursQuiet(m, n, cid);
        QuietProper(m, n);
        if AfterEngine(m, cid, step).error.None? {
          TickSilent(n, cid + 1, ticks, to);
          SilentTwice(m, n, Tick(n, cid + 1, ticks).manager, to);
        }
      } else {
        TickSilent(m, cid + 1, ticks, to);
      }
    }
  }

  lemma SendSilent(m: Manager, cid: u16, sdu: seq<byte>, to: u16)
    requires EnginesValid(m) && Proper(m)
    ensures Silent(m, Send(m, cid, sdu).manager, to)
  {
    hide AfterEngine, Ertm.SendSdu, Ertm.ValidConfig, DecodeFrame;
    if cid in m.channels && m.channels[cid].state == Open && m.channels[cid].ertm.Some? {
      EngineSilent(m, cid, Ertm.SendSdu(m.channels[cid].ertm.value, sdu), to);
    }
  }

  // The end `z` of `m` is not talking to `to`.
  predicate Elsewhere(m: Manager, z: u16, to: u16) { z in m.channels ==> m.channels[z].destinationCid != to }

  lemma CloseSilent(m: Manager, cid: u16, to: u16)
    requires Elsewhere(m, cid, to) || (cid in m.channels && m.channels[cid].state != Open)
    ensures Silent(m, Disconnect(m, cid).manager, to)
  {
    hide EncodeFrame, DecodeFrame;
    if cid in m.channels && m.channels[cid].state == Open {
      var c, id := m.channels[cid], NextIdentifier(m.identifier);
      SilentSignal(m, m.(channels := m.channels[cid := c.(state := WaitDisconnect)], identifier := id),
                   DisconnectionRequest(id, c.destinationCid, cid), to);
    }
  }

  /** Calls say nothing to `to`, unless they close an end that talks to it. */
  lemma CallSilent(m: Manager, op: Lifecycle.Operation, to: u16)
    requires EnginesValid(m) && Proper(m) && Allowed(Do(op)) && to >= FIRST_CID
    requires op.Close? ==> Elsewhere(m, op.cid, to) || (op.cid in m.channels && m.channels[op.cid].state != Open)
    ensures Silent(m, Lifecycle.Perform(m, op), to)
  {
    hide EncodeFrame, For, Send, Disconnect, AfterEngine, Ertm.SetReceiverBusy, Ertm.ValidConfig, FreePsm, FreeCid,
         ValidPsm, ValidSpec, Tick, Proper;
    match op
    case Register(_, _) =>
    case Unregister(_) =>
    case ConnectTo(psm, spec) =>
      var n := Connect(m, psm, spec).0;
      if n != m {
        var z, id := ConnectDoes(m, psm, spec);
        SilentSignals(m, n, [ConnectionRequest(id, psm, z)], to);
      }
    case SendSdu(cid, sdu) => SendSilent(m, cid, sdu, to);
    case Close(cid) => CloseSilent(m, cid, to);
    case SetBusy(cid, busy) =>
      if cid in m.channels && m.channels[cid].ertm.Some? {
        assert m.channels[cid].destinationCid != SIGNALING_CID by { assert Proper(m); ProperAt(m, cid); }
        EngineSilent(m, cid, Ertm.SetReceiverBusy(m.channels[cid].ertm.value, busy), to);
      }
    case Elapse(ticks) => TickSilent(m, 0, ticks, to);
    case Inquire(infoType) =>
      var id := NextIdentifier(m.identifier);
      SilentSignal(m, m.(identifier := id), InformationRequest(id, infoType), to);
    case TakeAccepted =>
    case TakeReceived(cid) =>
  }

  lemma ProperAt(m: Manager, cid: u16)
    requires Proper(m) && cid in m.channels
    ensures m.channels[cid].destinationCid != SIGNALING_CID
  {
  }

  // The frame is processed by an end that does not talk to `to`, and introduces nobody to it.
  predicate Unrelated(m: Manager, f: ControlFrame, to: u16) {
    && Elsewhere(m, Addressee(f), to)
    && (f.ConnectionRequest? ==> f.sourceCid != to)
    && (f.ConnectionResponse? && f.result == SUCCESS ==> f.destinationCid != to)
  }

  lemma RequestSilent(m: Manager, id: byte, psm: u32, w: u16, to: u16)
    requires w != to && to >= FIRST_CID
    ensures Silent(m, ProcessControl(m, ConnectionRequest(id, psm, w)).manager, to)
  {
    hide EncodeFrame, FreeCid, For, ProposalFrame, Signals;
    var f, n := ConnectionRequest(id, psm, w), ProcessControl(m, ConnectionRequest(id, psm, w)).manager;
    if psm in m.servers && FreeCid(m.channels, FIRST_CID).Some? {
      RequestTaken(m, id, psm, w);
      var z, next := FreeCid(m.channels, FIRST_CID).value, NextIdentifier(m.identifier);
      var frames := [ConnectionResponse(id, z, w, SUCCESS, 0), ProposalFrame(next, w, m.servers[psm])];
      ProposalAddress(next, w, m.servers[psm]);
      hide ProcessControl;
      SilentSignals(m, n, frames, to);
    } else {
      SilentSignal(m, m, ConnectionResponse(id, 0, w, if psm !in m.servers then REFUSED_PSM else REFUSED_RESOURCES, 0),
                   to);
    }
  }

  lemma ProposalAddress(id: byte, to: u16, spec: ChannelSpec)
    ensures var f := ProposalFrame(id, to, spec);
            f.ConfigureRequest? && Addressee(f) == to && LetterOf(f) == Offer
  {
    hide EncodeOptions, Proposal;
  }

  lemma ResponseSilent(m: Manager, f: ControlFrame, to: u16)
    requires f.ConnectionResponse? && (f.result == SUCCESS ==> f.destinationCid != to)
    ensures Silent(m, ProcessControl(m, f).manager, to)
  {
    hide For, ProposalFrame, Signals, QueueConfigureRequest;
    if f.result == SUCCESS && f.sourceCid in m.channels && m.channels[f.sourceCid].state == WaitConnectResponse {
      ResponseIs(m, f);
      ResponseTaken(m, f.identifier, f.destinationCid, f.sourceCid);
      var p := ProposalFrame(NextIdentifier(m.identifier), f.destinationCid, m.channels[f.sourceCid].spec);
      ProposalAddress(NextIdentifier(m.identifier), f.destinationCid, m.channels[f.sourceCid].spec);
      hide ProcessControl;
      SilentSignals(m, ProcessControl(m, f).manager, [p], to);
    }
  }

  lemma ProposedSilent(m: Manager, f: ControlFrame, to: u16)
    requires f.ConfigureRequest? && Elsewhere(m, f.destinationCid, to)
    ensures Silent(m, ProcessControl(m, f).manager, to)
  {
    hide For, ConfigureVerdict, TryEncodeOptions, EncodeFrame, DecodeOptions;
    var cid, options := f.destinationCid, DecodeOptions(f.options);
    if options.Success? && cid in m.channels {
      var v := ConfigureVerdict(m.channels[cid], f.flags, options.value);
      var n, response := m.(channels := m.channels[cid := v.channel]), TryEncodeOptions(v.response);
      if response.Success? {
        SilentSignal(m, n, ConfigureResponse(f.identifier, m.channels[cid].destinationCid, 0, v.result, response.value),
                     to);
      }
    }
  }

  /** A frame for an end that does not talk to `to` brings `to` nothing. */
  lemma SignalSilent(m: Manager, f: ControlFrame, to: u16)
    requires to >= FIRST_CID && Unrelated(m, f, to)
    ensures Silent(m, ProcessControl(m, f).manager, to)
  {
    match f
    case ConnectionRequest(id, psm, source) =>
      hide ProcessControl, Silent;
      RequestSilent(m, id, psm, source, to);
    case ConnectionResponse(_, _, _, _, _) =>
      hide ProcessControl, Silent;
      ResponseSilent(m, f, to);
    case ConfigureRequest(_, _, _, _) =>
      hide ProcessControl, Silent;
      ProposedSilent(m, f, to);
    case ConfigureResponse(_, source, _, result, _) => hide For;
    case DisconnectionRequest(id, destination, source) =>
      hide EncodeFrame, For;
      if destination in m.channels {
        var n := m.(channels := m.channels[destination := m.channels[destination].(state := Closed)]);
        SilentSignal(m, n, DisconnectionResponse(id, destination, m.channels[destination].destinationCid), to);
      }
    case EchoRequest(id, data) =>
      hide EncodeFrame, For;
      SilentSignal(m, m, EchoResponse(id, data), to);
    case InformationRequest(id, infoType) =>
      hide EncodeFrame, For, Inform;
      InformIsResponse(m.information, id, infoType);
      SilentSignal(m, m, Inform(m.information, id, infoType), to);
    case _ => hide For;
  }

  lemma DataSilent(m: Manager, p: Pdu, to: u16)
    requires Proper(m) && p.cid != SIGNALING_CID
    ensures Silent(m, ProcessPdu(m, p).manager, to)
  {
    hide AfterEngine, Ertm.ReceiveFrame, Fcs.VerifyAndStripFcs, For;
    if p.cid in m.channels && m.channels[p.cid].state == Open && m.channels[p.cid].ertm.Some? {
      var c := m.channels[p.cid];
      var payload := if c.fcsEnabled then Fcs.VerifyAndStripFcs(p.cid, p.payload) else Success(p.payload);
      if payload.Success? { EngineSilent(m, p.cid, Ertm.ReceiveFrame(c.ertm.value, payload.value), to); }
    }
  }

  // ---------------------------------------------------------------------------
  // What has been settled about a channel
  // ---------------------------------------------------------------------------

  // The parts of a channel that say how far its opening has come.
  predicate SameControl(c: Channel, d: Channel) {
    && d.state == c.state && d.peerConfigured == c.peerConfigured && d.responseReceived == c.responseReceived
    && d.destinationCid == c.destinationCid && d.incoming == c.incoming && d.spec == c.spec
  }

  predicate KeepsControl(m: Manager, n: Manager, x: u16) {
    x in m.channels ==> x in n.channels && SameControl(m.channels[x], n.channels[x])
  }

  lemma EngineControl(m: Manager, z: u16, step: Ertm.Step, x: u16)
    requires z in m.channels
    ensures KeepsControl(m, AfterEngine(m, z, step).manager, x)
  {
    hide QueueFrames;
    var c, e := m.channels[z], step.engine;
    var d := c.(ertm := Some(Drained(e)), received := c.received + e.received);
    var n := m.(channels := m.channels[z := c.(ertm := Some(e))]);
    Lifecycle.QueueFramesSame(n.(channels := n.channels[z := d]), c.destinationCid, c.fcsEnabled, e.outbound);
  }

  lemma {:induction false} TickControl(m: Manager, cid: nat, ticks: u32, x: u16)
    requires cid <= 0x1_0000
    ensures KeepsControl(m, Tick(m, cid, ticks).manager, x)
    decreases 0x1_0000 - cid
  {
    hide AfterEngine, Ertm.Tick;
    if cid <= 0xFFFF {
      if cid in m.channels && m.channels[cid].ertm.Some? {
        var step := Ertm.Tick(m.channels[cid].ertm.value, ticks);
        EngineControl(m, cid, step, x);
        if AfterEngine(m, cid, step).error.None? { TickControl(AfterEngine(m, cid, step).manager, cid + 1, ticks, x); }
      } else {
        TickControl(m, cid + 1, ticks, x);
      }
    }
  }

  lemma SendControl(m: Manager, cid: u16, sdu: seq<byte>, x: u16)
    requires EnginesValid(m)
    ensures KeepsControl(m, Send(m, cid, sdu).manager, x)
  {
    hide AfterEngine, Ertm.SendSdu, Ertm.ValidConfig;
    if cid in m.channels && m.channels[cid].ertm.Some? {
      EngineControl(m, cid, Ertm.SendSdu(m.channels[cid].ertm.value, sdu), x);
    }
  }

  lemma BusyControl(m: Manager, cid: u16, busy: bool, x: u16)
    ensures KeepsControl(m, SetReceiverBusy(m, cid, busy).manager, x)
  {
    hide AfterEngine, Ertm.SetReceiverBusy;
    if cid in m.channels && m.channels[cid].ertm.Some? {
      EngineControl(m, cid, Ertm.SetReceiverBusy(m.channels[cid].ertm.value, busy), x);
    }
  }

  /** Calls settle nothing, unless they close the channel. */
  lemma CallControl(m: Manager, op: Lifecycle.Operation, x: u16)
    requires EnginesValid(m) && Allowed(Do(op))
             && (op == Lifecycle.Close(x) && x in m.channels ==> m.channels[x].state != Open)
    ensures KeepsControl(m, Lifecycle.Perform(m, op), x)
  {
    hide EncodeFrame, Send, SetReceiverBusy, FreePsm, FreeCid, ValidPsm, ValidSpec, Tick, EnginesValid;
    match op
    case SendSdu(cid, sdu) => SendControl(m, cid, sdu, x);
    case SetBusy(cid, busy) => BusyControl(m, cid, busy, x);
    case Elapse(ticks) => TickControl(m, 0, ticks, x);
    case _ =>
  }

  lemma DataControl(m: Manager, p: Pdu, x: u16)
    requires p.cid != SIGNALING_CID
    ensures KeepsControl(m, ProcessPdu(m, p).manager, x)
  {
    hide AfterEngine, Ertm.ReceiveFrame, Fcs.VerifyAndStripFcs;
    if p.cid in m.channels && m.channels[p.cid].state == Open && m.channels[p.cid].ertm.Some? {
      var c := m.channels[p.cid];
      var payload := if c.fcsEnabled then Fcs.VerifyAndStripFcs(p.cid, p.payload) else Success(p.payload);
      if payload.Success? { EngineControl(m, p.cid, Ertm.ReceiveFrame(c.ertm.value, payload.value), x); }
    }
  }

  /** Nor does a frame for another end. */
  lemma SignalControl(m: Manager, f: ControlFrame, x: u16)
    requires Addressee(f) != x
    ensures x in m.channels ==>
            x in ProcessControl(m, f).manager.channels && ProcessControl(m, f).manager.channels[x] == m.channels[x]
  {
    hide ProcessControl, OnConnectionRequest, OnConnectionResponse, OnConfigureRequest, FreeCid, ProposalFrame, Signals,
         Minor;
    if x in m.channels {
      if Plain(m, f) {
        PlainNods(m, f);
      } else if f.ConfigureRequest? {
        ControlIs(m, f);
        ProposalMurmurs(m, f.identifier, f.destinationCid, f.flags, f.options);
      } else if f.ConnectionRequest? {
        RequestTaken(m, f.identifier, f.psm, f.sourceCid);
      } else {
        ResponseIs(m, f);
        ResponseTaken(m, f.identifier, f.destinationCid, f.sourceCid);
      }
    }
  }

  // ---------------------------------------------------------------------------
  // How far a channel has come
  // ---------------------------------------------------------------------------

  // How far the proposal of one end has come.
  datatype Progress = Unsent | Offered | Taken | Done

  // An end `c` that talks to `y`, given how far its own proposal and the other's have come.
  predicate Half(c: Channel, y: u16, own: Progress, other: Progress) {
    && (own.Unsent? <==> c.state == WaitConnectResponse) && (own.Done? <==> c.responseReceived)
    && (other.Taken? || other.Done? <==> c.peerConfigured)
    && (c.state == WaitConnectResponse || c.state == Configuring || c.state == Open)
    && (c.state == Open <==> c.responseReceived && c.peerConfigured)
    && (if c.state == WaitConnectResponse then !c.incoming && other.Offered? else c.destinationCid == y)
  }

  // What is on its way to such an end.
  function Awaited(c: Channel, own: Progress, other: Progress): seq<Letter> {
    (if c.state == WaitConnectResponse then [Answer] else [])
    + (if other.Offered? then [Offer] else []) + (if own.Taken? then [Assent] else [])
  }

  predicate Staged(l: Manager, r: Manager, x: u16, y: u16, a: Progress, b: Progress) {
    && x in l.channels && y in r.channels
    && Half(l.channels[x], y, a, b) && Half(r.channels[y], x, b, a)
    && Mail(r.outbound, x) == Awaited(l.channels[x], a, b) && Mail(l.outbound, y) == Awaited(r.channels[y], b, a)
  }

  lemma StagedBack(l: Manager, r: Manager, x: u16, y: u16, a: Progress, b: Progress)
    requires Staged(l, r, x, y, a, b)
    ensures Staged(r, l, y, x, b, a)
  {
  }

  /** With nothing on its way the channel is open at both ends. */
  lemma StagedOpens(l: Manager, r: Manager, x: u16, y: u16, a: Progress, b: Progress)
    requires Staged(l, r, x, y, a, b) && l.outbound == r.outbound == []
    ensures l.channels[x].state == Open && r.channels[y].state == Open
  {
  }

  // A step that says nothing to the other end and settles nothing here.
  lemma StagedSame(l: Manager, r: Manager, n: Manager, o: Manager, x: u16, y: u16, a: Progress, b: Progress)
    requires Staged(l, r, x, y, a, b) && Silent(l, n, y) && KeepsControl(l, n, x)
    requires o.channels == r.channels && Mail(o.outbound, x) == Mail(r.outbound, x)
    ensures Staged(n, o, x, y, a, b)
  {
    hide For, Mail;
    SilentMail(l, n, y);
  }

  // The first letter is taken out.
  lemma FirstLetter(queue: seq<Pdu>, x: u16)
    requires queue != []
    ensures For(queue[0], x) ==> Mail(queue, x) == [LetterOf(DecodeFrame(queue[0].payload).value)] + Mail(queue[1..], x)
    ensures !For(queue[0], x) ==> Mail(queue[1..], x) == Mail(queue, x)
  {
    hide For, LetterOf, DecodeFrame;
  }

  lemma OneLetter(queue: seq<Pdu>, f: ControlFrame, y: u16)
    requires |Payload(f)| <= 0xFFFF && !f.Generic? && !f.ConnectionRequest? && Addressee(f) == y
    ensures Mail(queue + [Signal(f)], y) == Mail(queue, y) + [LetterOf(f)]
  {
    hide Payload, EncodeFrame, DecodeFrame, Addressee, LetterOf;
    FramesRead(f);
    MailConcat(queue, [Signal(f)], y);
    assert [Signal(f)][1..] == [] && Mail([], y) == [] && [LetterOf(f)] + [] == [LetterOf(f)];
  }

  // What the mail for an end begins with.
  lemma HeadOf(c: Channel, own: Progress, other: Progress, first: Letter, rest: seq<Letter>)
    requires Awaited(c, own, other) == [first] + rest
    ensures first == (if c.state == WaitConnectResponse then Answer else if other.Offered? then Offer else Assent)
    ensures rest == Awaited(c, own, other)[1..]
    ensures first.Assent? ==> own.Taken? && rest == []
  {
    assert ([first] + rest)[0] == first && ([first] + rest)[1..] == rest;
  }

  /** The acceptance arrives: the end makes its own proposal. */
  lemma AnswerStaged(l: Manager, r: Manager, n: Manager, o: Manager, x: u16, y: u16, a: Progress, b: Progress,
                     next: byte, rest: seq<Letter>)
    requires Staged(l, r, x, y, a, b) && Mail(r.outbound, x) == [Answer] + rest && y != 0
    requires Does(l, n, x, l.channels[x].(connectionResult := Some(SUCCESS), destinationCid := y, state := Configuring),
                  [ProposalFrame(next, y, l.channels[x].spec)])
    requires o.channels == r.channels && Mail(o.outbound, x) == rest
    ensures Staged(n, o, x, y, Offered, b)
  {
    var c, f := l.channels[x], ProposalFrame(next, y, l.channels[x].spec);
    HeadOf(c, a, b, Answer, rest);
    ConfigurationsFit(next, y, c.spec);
    ProposalAddress(next, y, c.spec);
    OneLetter(l.outbound, f, y);
    assert Signals([f]) == [Signal(f)];
    hide Mail, Signal, ProposalFrame, Signals;
  }

  /** The other's proposal arrives and is accepted. */
  lemma OfferStaged(l: Manager, r: Manager, n: Manager, o: Manager, x: u16, y: u16, a: Progress, b: Progress,
                    d: Channel, f: ControlFrame,
                    rest: seq<Letter>)
    requires Staged(l, r, x, y, a, b) && Mail(r.outbound, x) == [Offer] + rest
    requires n.channels == l.channels[x := d] && n.outbound == l.outbound + [Signal(f)]
    requires var c := l.channels[x];
             && d.peerConfigured && d.responseReceived == c.responseReceived && d.destinationCid == c.destinationCid
                && d.incoming == c.incoming
             && d.state == if c.responseReceived && c.state == Configuring then Open else c.state
    requires |Payload(f)| <= 0xFFFF && f.ConfigureResponse? && f.result == SUCCESS
             && f.sourceCid == l.channels[x].destinationCid
    requires o.channels == r.channels && Mail(o.outbound, x) == rest
    ensures Staged(n, o, x, y, a, Taken)
  {
    HeadOf(l.channels[x], a, b, Offer, rest);
    OneLetter(l.outbound, f, y);
    hide Mail, Signal, Payload;
  }

  /** The other's agreement arrives. */
  lemma AssentStaged(l: Manager, r: Manager, n: Manager, o: Manager, x: u16, y: u16, a: Progress, b: Progress,
                     d: Channel, rest: seq<Letter>)
    requires Staged(l, r, x, y, a, b) && Mail(r.outbound, x) == [Assent] + rest
    requires n.channels == l.channels[x := d] && n.outbound == l.outbound
    requires var c := l.channels[x];
             && d.responseReceived && d.peerConfigured == c.peerConfigured && d.destinationCid == c.destinationCid
                && d.incoming == c.incoming
             && d.state == if c.peerConfigured && c.state == Configuring then Open else c.state
    requires o.channels == r.channels && Mail(o.outbound, x) == rest
    ensures Staged(n, o, x, y, Done, b)
  {
    HeadOf(l.channels[x], a, b, Assent, rest);
    hide Mail;
  }

  // A proposal that agrees: answered, and the channel opens if it was only waiting for it.
  lemma OfferTaken(m: Manager, f: ControlFrame, x: u16, p: ChannelSpec) returns (d: Channel, g: ControlFrame)
    requires x in m.channels && ValidSpec(m.channels[x].spec) && ValidSpec(p) && Agree(m.channels[x].spec, p)
    requires f.ConfigureRequest? && f.destinationCid == x && f.flags == 0
             && DecodeOptions(f.options) == Success(Proposal(p))
    ensures var c, n := m.channels[x], ProcessControl(m, f).manager;
            && n.channels == m.channels[x := d] && n.outbound == m.outbound + [Signal(g)]
            && d.peerConfigured && d.responseReceived == c.responseReceived && d.destinationCid == c.destinationCid
               && d.incoming == c.incoming
            && d.state == (if c.responseReceived && c.state == Configuring then Open else c.state)
            && |Payload(g)| <= 0xFFFF && g.ConfigureResponse? && g.result == SUCCESS && g.sourceCid == c.destinationCid
  {
    var c, v := m.channels[x], ConfigureVerdict(m.channels[x], 0, Proposal(p));
    AcceptedExactlyWhenAgreed(c, p);
    VerdictSameEnd(c, 0, Proposal(p));
    VerdictKeepsResponse(c, 0, Proposal(p));
    ProposalEncodes(p);
    ConfigurationsFit(f.identifier, c.destinationCid, p);
    g := AgreementFrame(f.identifier, c.destinationCid, p);
    hide ConfigureVerdict, Proposal, DecodeOptions, TryEncodeOptions, EncodeOptions, EncodeFrame, ValidSpec, Agree,
         Payload;
    d := v.channel;
    if c.responseReceived && c.state == Configuring {
      d := d.(state := Open, announced := d.announced || d.incoming);
      assert m.channels[x := v.channel][x := d] == m.channels[x := d];
    }
  }

  lemma VerdictKeepsResponse(c: Channel, flags: u16, options: seq<ConfigurationOption>)
    ensures ConfigureVerdict(c, flags, options).channel.responseReceived == c.responseReceived
  {
    hide Negotiate, Ertm.ValidConfig, EnhancedOption, FcsOption, EngineConfigFor, Ertm.Fresh;
  }

  lemma AssentTaken(m: Manager, f: ControlFrame, x: u16) returns (d: Channel)
    requires x in m.channels && f.ConfigureResponse? && f.sourceCid == x && f.result == SUCCESS
    ensures var c, n := m.channels[x], ProcessControl(m, f).manager;
            && n.channels == m.channels[x := d] && n.outbound == m.outbound
            && d.responseReceived && d.peerConfigured == c.peerConfigured && d.destinationCid == c.destinationCid
               && d.incoming == c.incoming
            && d.state == if c.peerConfigured && c.state == Configuring then Open else c.state
  {
    var c := m.channels[x];
    d := c.(responseReceived := true);
    if c.peerConfigured && c.state == Configuring {
      d := d.(state := Open, announced := d.announced || d.incoming);
      assert m.channels[x := c.(responseReceived := true)][x := d] == m.channels[x := d];
    }
  }

  // ---------------------------------------------------------------------------
  // A PDU arrives at an end of a channel
  // ---------------------------------------------------------------------------

  predicate Agreed(l: Manager, r: Manager, x: u16, y: u16)
    requires Couple(l, r, x, y)
  {
    Agree(l.channels[x].spec, r.channels[y].spec)
  }

  // The frame `f` has just left the right's queue, which was then `o`, and is for this end.
  predicate Comes(l: Manager, r: Manager, o: Manager, x: u16, f: ControlFrame) {
    && FrameOk(f, r, l) && Addressee(f) == x && o.channels == r.channels
    && Mail(r.outbound, x) == [LetterOf(f)] + Mail(o.outbound, x)
  }

  lemma AnswerComes(l: Manager, r: Manager, o: Manager, x: u16, y: u16, a: Progress, b: Progress, f: ControlFrame)
    requires Talk(l, r) && Couple(l, r, x, y) && Staged(l, r, x, y, a, b) && Comes(l, r, o, x, f)
             && f.ConnectionResponse?
    ensures Staged(ProcessControl(l, f).manager, o, x, y, Offered, b)
  {
    HeadOf(l.channels[x], a, b, LetterOf(f), Mail(o.outbound, x));
    AcceptorIs(l, r, x, y, f.destinationCid, x);
    CoupleAlone(l, r, x, y);
    hide Talk, Mail, Couple, ProcessControl, ProposalFrame, Does, Aimed, Alone, FrameOk;
    ResponseIs(l, f);
    ResponseTaken(l, f.identifier, y, x);
    AnswerStaged(l, r, ProcessControl(l, f).manager, o, x, y, a, b, NextIdentifier(l.identifier), Mail(o.outbound, x));
  }

  lemma OfferComes(l: Manager, r: Manager, o: Manager, x: u16, y: u16, a: Progress, b: Progress, f: ControlFrame)
    requires Sane(l, r) && Couple(l, r, x, y) && Agreed(l, r, x, y) && Staged(l, r, x, y, a, b)
    requires Comes(l, r, o, x, f) && f.ConfigureRequest?
    ensures Staged(ProcessControl(l, f).manager, o, x, y, a, Taken)
  {
    ProposalReads(l, r, f, x, y);
    hide Talk, Lifecycle.Inv, Mail, Couple, ProcessControl, ValidSpec, Agree, Proposal, DecodeOptions, Payload, Signal,
         FrameOk, Half, Awaited;
    SaneSpecs(l, r, x, y);
    var e, g := OfferTaken(l, f, x, r.channels[y].spec);
    OfferStaged(l, r, ProcessControl(l, f).manager, o, x, y, a, b, e, g, Mail(o.outbound, x));
  }

  lemma AssentComes(l: Manager, r: Manager, o: Manager, x: u16, y: u16, a: Progress, b: Progress, f: ControlFrame)
    requires Staged(l, r, x, y, a, b) && Comes(l, r, o, x, f) && f.ConfigureResponse?
    ensures Staged(ProcessControl(l, f).manager, o, x, y, Done, b)
  {
    HeadOf(l.channels[x], a, b, LetterOf(f), Mail(o.outbound, x));
    hide Mail, ProcessControl, FrameOk, Half, Awaited;
    var e := AssentTaken(l, f, x);
    AssentStaged(l, r, ProcessControl(l, f).manager, o, x, y, a, b, e, Mail(o.outbound, x));
  }

  lemma LetterStaged(l: Manager, r: Manager, o: Manager, x: u16, y: u16, a: Progress, b: Progress, f: ControlFrame)
    returns (c: Progress, d: Progress)
    requires Sane(l, r) && Couple(l, r, x, y) && Agreed(l, r, x, y) && Staged(l, r, x, y, a, b) && Comes(l, r, o, x, f)
    ensures Staged(ProcessControl(l, f).manager, o, x, y, c, d)
  {
    HeadOf(l.channels[x], a, b, LetterOf(f), Mail(o.outbound, x));
    hide Sane, Mail, Couple, ProcessControl, FrameOk, Staged, Comes;
    if f.ConnectionResponse? {
      c, d := Offered, b;
      AnswerComes(l, r, o, x, y, a, b, f);
    } else if f.ConfigureRequest? {
      c, d := a, Taken;
      OfferComes(l, r, o, x, y, a, b, f);
    } else {
      c, d := Done, b;
      AssentComes(l, r, o, x, y, a, b, f);
    }
  }

  // A frame for another end has nothing to do with the other end of this channel.
  lemma OtherUnrelated(l: Manager, r: Manager, x: u16, y: u16, f: ControlFrame)
    requires Talk(l, r) && Couple(l, r, x, y) && FrameOk(f, r, l) && Addressee(f) != x
    ensures Unrelated(l, f, y)
  {
    CoupleAlone(l, r, x, y);
    if f.ConnectionRequest? { RequesterIsOther(l, r, x, y, f.sourceCid); }
    if f.ConnectionResponse? && f.result == SUCCESS { AcceptorIs(l, r, x, y, f.destinationCid, f.sourceCid); }
    hide Talk, Couple, FrameOk;
  }

  lemma OtherStaged(l: Manager, r: Manager, o: Manager, x: u16, y: u16, a: Progress, b: Progress, f: ControlFrame)
    requires Talk(l, r) && Couple(l, r, x, y) && Staged(l, r, x, y, a, b) && FrameOk(f, r, l) && Addressee(f) != x
    requires o.channels == r.channels && Mail(o.outbound, x) == Mail(r.outbound, x)
    ensures Staged(ProcessControl(l, f).manager, o, x, y, a, b)
  {
    hide Talk, Couple, FrameOk, ProcessControl, Staged, Silent, Addressee, Unrelated, Mail, Aimed, Alone;
    CoupleAlone(l, r, x, y);
    OtherUnrelated(l, r, x, y, f);
    SignalSilent(l, f, y);
    SignalControl(l, f, x);
    StagedSame(l, r, ProcessControl(l, f).manager, o, x, y, a, b);
  }

  /** Any PDU that arrives brings the channel one step further, or leaves it where it is. */
  lemma PduStaged(l: Manager, r: Manager, x: u16, y: u16, a: Progress, b: Progress) returns (c: Progress, d: Progress)
    requires Sane(l, r) && Couple(l, r, x, y) && Agreed(l, r, x, y) && Staged(l, r, x, y, a, b) && r.outbound != []
    ensures Staged(ProcessPdu(l, r.outbound[0]).manager, PollOutbound(r), x, y, c, d)
  {
    var p, o := r.outbound[0], PollOutbound(r);
    TalkProper(l, r);
    assert PduOk(p, r, l);
    FirstLetter(r.outbound, x);
    hide Talk, Lifecycle.Inv, Couple, Staged, FrameOk, ProcessControl, DecodeFrame, Addressee, LetterOf, Mail, Proper,
         Agreed, Silent, KeepsControl;
    c, d := a, b;
    if p.cid != SIGNALING_CID {
      hide ProcessPdu;
      DataSilent(l, p, y);
      DataControl(l, p, x);
      StagedSame(l, r, ProcessPdu(l, p).manager, o, x, y, a, b);
    } else if DecodeFrame(p.payload).Failure? {
      SilentSelf(l, x, y);
      StagedSame(l, r, l, o, x, y, a, b);
    } else if Addressee(DecodeFrame(p.payload).value) == x {
      c, d := LetterStaged(l, r, o, x, y, a, b, DecodeFrame(p.payload).value);
    } else {
      OtherStaged(l, r, o, x, y, a, b, DecodeFrame(p.payload).value);
    }
  }

  lemma SilentSelf(m: Manager, x: u16, to: u16)
    ensures Silent(m, m, to) && KeepsControl(m, m, x)
  {
  }

  lemma CallStaged(l: Manager, r: Manager, x: u16, y: u16, a: Progress, b: Progress, op: Lifecycle.Operation)
    requires Sane(l, r) && EnginesValid(l) && Couple(l, r, x, y) && Staged(l, r, x, y, a, b) && Allowed(Do(op))
             && op != Lifecycle.Close(x)
    ensures Staged(Lifecycle.Perform(l, op), r, x, y, a, b)
  {
    TalkProper(l, r);
    CoupleAlone(l, r, x, y);
    assert op.Close? ==> Elsewhere(l, op.cid, y);
    hide Talk, Lifecycle.Inv, Couple, Staged, Silent, KeepsControl, Lifecycle.Perform, EnginesValid, Proper, Alone,
         Aimed;
    CallSilent(l, op, y);
    CallControl(l, op, x);
    StagedSame(l, r, Lifecycle.Perform(l, op), r, x, y, a, b);
  }

  // ---------------------------------------------------------------------------
  // Requests and their answers
  // ---------------------------------------------------------------------------

  // A request of the end `x` is on its way.
  predicate Asked(m: Manager, x: u16) { exists i :: 0 <= i < |m.outbound| && Requester(m.outbound[i]) == Some(x) }

  // The PDU answers the request of the end `x`.
  predicate Answers(p: Pdu, x: u16) { For(p, x) && DecodeFrame(p.payload).value.ConnectionResponse? }

  predicate Replied(queue: seq<Pdu>, x: u16) { exists i :: 0 <= i < |queue| && Answers(queue[i], x) }

  predicate NoneTo(queue: seq<Pdu>, x: u16) { forall i :: 0 <= i < |queue| ==> !For(queue[i], x) }

  predicate Pristine(c: Channel) { c.state == WaitConnectResponse && !c.peerConfigured && !c.responseReceived }

  // Until its request arrives nobody says anything to an end.
  predicate Calm(l: Manager, r: Manager, x: u16) {
    && (x >= FIRST_CID && (x !in l.channels || Asked(l, x)) ==> NoneTo(r.outbound, x))
    && (Asked(l, x) ==> x in l.channels && Pristine(l.channels[x]))
  }

  // The request of an end that waits, or its answer, is on its way.
  predicate Minded(l: Manager, r: Manager, x: u16) {
    x in l.channels && l.channels[x].state == WaitConnectResponse ==> Asked(l, x) || Replied(r.outbound, x)
  }

  // From `m` to `n` the end `x` asked for a connection only if it is new, and if it is new and waits it did.
  predicate Inquires(m: Manager, n: Manager, x: u16) {
    && |m.outbound| <= |n.outbound| && n.outbound[..|m.outbound|] == m.outbound
    && (Asked(n, x) ==> Asked(m, x) || (x !in m.channels && x in n.channels && Pristine(n.channels[x])))
    && (x in n.channels && x !in m.channels && n.channels[x].state == WaitConnectResponse ==> Asked(n, x))
  }

  lemma AskedLater(m: Manager, n: Manager, x: u16)
    requires |m.outbound| <= |n.outbound| && n.outbound[..|m.outbound|] == m.outbound
    ensures Asked(m, x) ==> Asked(n, x)
    ensures Replied(m.outbound, x) ==> Replied(n.outbound, x)
    ensures Asked(n, x) ==>
            Asked(m, x) || exists i :: |m.outbound| <= i < |n.outbound| && Requester(n.outbound[i]) == Some(x)
  {
    hide Requester, For, DecodeFrame;
    if Asked(m, x) {
      var i :| 0 <= i < |m.outbound| && Requester(m.outbound[i]) == Some(x);
      assert n.outbound[i] == n.outbound[..|m.outbound|][i];
    }
    if Replied(m.outbound, x) {
      var i :| 0 <= i < |m.outbound| && Answers(m.outbound[i], x);
      assert n.outbound[i] == n.outbound[..|m.outbound|][i];
    }
    if Asked(n, x) {
      var i :| 0 <= i < |n.outbound| && Requester(n.outbound[i]) == Some(x);
      if i < |m.outbound| { assert m.outbound[i] == n.outbound[..|m.outbound|][i]; }
    }
  }

  lemma QuietInquires(m: Manager, n: Manager, x: u16)
    requires Quiet(m, n)
    ensures Inquires(m, n, x)
  {
    AskedLater(m, n, x);
    hide DecodeFrame, Names, Asked;
  }

  lemma NoRequester(f: ControlFrame)
    requires !f.ConnectionRequest? && !f.Generic?
    ensures Requester(Signal(f)).None?
  {
    EncodedCode(f);
    hide EncodeFrame, DecodeFrame;
  }

  lemma {:induction false} NoRequesters(frames: seq<ControlFrame>)
    requires forall f <- frames :: !f.ConnectionRequest? && !f.Generic?
    ensures forall p <- Signals(frames) :: Requester(p).None?
  {
    hide Requester, Signal;
    forall p <- Signals(frames) ensures Requester(p).None? {
      var i :| 0 <= i < |frames| && p == Signals(frames)[i];
      NoRequester(frames[i]);
    }
  }

  lemma NotAsked(m: Manager, n: Manager, more: seq<Pdu>, x: u16)
    requires n.outbound == m.outbound + more && forall p <- more :: Requester(p).None?
    ensures n.outbound[..|m.outbound|] == m.outbound && (Asked(n, x) ==> Asked(m, x))
  {
    hide Requester;
    forall i | |m.outbound| <= i < |n.outbound| ensures Requester(n.outbound[i]).None? {
      assert n.outbound[i] == more[i - |m.outbound|];
    }
  }

  lemma SignalsInquire(m: Manager, n: Manager, z: u16, c: Channel, frames: seq<ControlFrame>, x: u16)
    requires Does(m, n, z, c, frames) && forall f <- frames :: !f.ConnectionRequest? && !f.Generic?
    requires z in m.channels || c.state != WaitConnectResponse
    ensures Inquires(m, n, x)
  {
    NoRequesters(frames);
    NotAsked(m, n, Signals(frames), x);
    hide Requester, Signals, Asked;
  }

  lemma ConnectInquires(m: Manager, psm: u32, spec: ChannelSpec, x: u16)
    requires psm <= 0xFFFF
    ensures Inquires(m, Connect(m, psm, spec).0, x)
  {
    hide Connect, ValidPsm, EncodeFrame, Requester;
    var n := Connect(m, psm, spec).0;
    if n != m {
      var z, id := ConnectDoes(m, psm, spec);
      RequestNames(id, psm, z);
      var k := |m.outbound|;
      assert Signals([ConnectionRequest(id, psm, z)]) == [Signal(ConnectionRequest(id, psm, z))];
      assert n.outbound[..k] == m.outbound && n.outbound[k] == Signal(ConnectionRequest(id, psm, z))
             && |n.outbound| == k + 1;
      AskedLater(m, n, x);
    }
  }

  lemma RequestNames(id: byte, psm: u32, z: u16)
    requires ValidPsm(psm) && psm <= 0xFFFF
    ensures Requester(Signal(ConnectionRequest(id, psm, z))) == Some(z)
  {
    RequestReads(id, psm, z);
    hide EncodeFrame, DecodeFrame, ValidPsm;
  }

  lemma CallInquires(l: Manager, r: Manager, op: Lifecycle.Operation, x: u16)
    requires Sane(l, r) && EnginesValid(l) && Allowed(Do(op))
    ensures Inquires(l, Lifecycle.Perform(l, op), x)
  {
    TalkProper(l, r);
    hide Talk, Lifecycle.Inv, EnginesValid, Tick, Connect, Proper, Quiet, Murmurs, Inquires;
    if op.ConnectTo? {
      ConnectInquires(l, op.target, op.spec, x);
    } else if op.Elapse? {
      TickQuiet(l, 0, op.ticks);
      QuietInquires(l, Tick(l, 0, op.ticks).manager, x);
    } else {
      hide Lifecycle.Perform;
      CallMurmurs(l, op);
      MurmursQuiet(l, Lifecycle.Perform(l, op), About(op));
      QuietInquires(l, Lifecycle.Perform(l, op), x);
    }
  }

  lemma SignalInquires(l: Manager, f: ControlFrame, x: u16)
    ensures Inquires(l, ProcessControl(l, f).manager, x)
  {
    hide ProcessControl, OnConnectionRequest, OnConnectionResponse, OnConfigureRequest, FreeCid, ProposalFrame, Quiet,
         Murmurs, Does, Inquires;
    var n := ProcessControl(l, f).manager;
    if Plain(l, f) {
      PlainNods(l, f);
      MurmursQuiet(l, n, Addressee(f));
      QuietInquires(l, n, x);
    } else if f.ConfigureRequest? {
      ControlIs(l, f);
      ProposalMurmurs(l, f.identifier, f.destinationCid, f.flags, f.options);
      MurmursQuiet(l, n, f.destinationCid);
      QuietInquires(l, n, x);
    } else if f.ConnectionRequest? {
      RequestTaken(l, f.identifier, f.psm, f.sourceCid);
      var z, next := FreeCid(l.channels, FIRST_CID).value, NextIdentifier(l.identifier);
      ProposalAddress(next, f.sourceCid, l.servers[f.psm]);
      SignalsInquire(l, n, z, IncomingChannel(f.psm, z, f.sourceCid, l.servers[f.psm]),
                     [ConnectionResponse(f.identifier, z, f.sourceCid, SUCCESS, 0),
                      ProposalFrame(next, f.sourceCid, l.servers[f.psm])], x);
    } else {
      ResponseIs(l, f);
      ResponseTaken(l, f.identifier, f.destinationCid, f.sourceCid);
      var c, next := l.channels[f.sourceCid], NextIdentifier(l.identifier);
      ProposalAddress(next, f.destinationCid, c.spec);
      SignalsInquire(l, n, f.sourceCid,
                     c.(connectionResult := Some(SUCCESS), destinationCid := f.destinationCid, state := Configuring),
                     [ProposalFrame(next, f.destinationCid, c.spec)], x);
    }
  }

  lemma PduInquires(l: Manager, p: Pdu, x: u16)
    requires Proper(l)
    ensures Inquires(l, ProcessPdu(l, p).manager, x)
  {
    hide DecodeFrame, ProcessControl, Proper, Murmurs, Quiet, Asked;
    if p.cid != SIGNALING_CID {
      hide ProcessPdu, Inquires;
      DataMurmurs(l, p);
      MurmursQuiet(l, ProcessPdu(l, p).manager, p.cid);
      QuietInquires(l, ProcessPdu(l, p).manager, x);
    } else if DecodeFrame(p.payload).Success? {
      SignalInquires(l, DecodeFrame(p.payload).value, x);
    }
  }

  // A queue, or the queue without its first PDU.
  predicate Rest(before: seq<Pdu>, after: seq<Pdu>) { after == before || (before != [] && after == before[1..]) }

  lemma RestKeeps(r: Manager, o: Manager, x: u16)
    requires Rest(r.outbound, o.outbound)
    ensures NoneTo(r.outbound, x) ==> NoneTo(o.outbound, x)
    ensures Asked(o, x) ==> Asked(r, x)
    ensures Asked(r, x) ==> Asked(o, x) || (r.outbound != [] && Requester(r.outbound[0]) == Some(x))
    ensures Replied(r.outbound, x) ==> Replied(o.outbound, x) || (r.outbound != [] && Answers(r.outbound[0], x))
  {
    hide For, Requester, Answers;
    if o.outbound != r.outbound {
      if Asked(o, x) {
        var i :| 0 <= i < |o.outbound| && Requester(o.outbound[i]) == Some(x);
        assert r.outbound[i + 1] == o.outbound[i];
      }
      if Asked(r, x) {
        var i :| 0 <= i < |r.outbound| && Requester(r.outbound[i]) == Some(x);
        if i > 0 { assert o.outbound[i - 1] == r.outbound[i]; }
      }
      if Replied(r.outbound, x) {
        var i :| 0 <= i < |r.outbound| && Answers(r.outbound[i], x);
        if i > 0 { assert o.outbound[i - 1] == r.outbound[i]; }
      }
    }
  }

  // After a step of the left, about its own end.
  lemma CalmOwn(l: Manager, r: Manager, n: Manager, o: Manager, x: u16)
    requires Calm(l, r, x) && Inquires(l, n, x) && Rest(r.outbound, o.outbound)
    requires (x in l.channels ==> x in n.channels) && (Asked(l, x) ==> KeepsControl(l, n, x))
    requires x in n.channels ==> x >= FIRST_CID
    ensures Calm(n, o, x)
  {
    RestKeeps(r, o, x);
    hide Asked, NoneTo, Rest;
  }

  // About the right's end.
  lemma CalmOther(l: Manager, r: Manager, n: Manager, o: Manager, y: u16)
    requires Calm(r, l, y) && o.channels == r.channels && Rest(r.outbound, o.outbound)
    requires y >= FIRST_CID && (y !in r.channels || Asked(o, y)) ==> Silent(l, n, y)
    ensures Calm(o, n, y)
  {
    RestKeeps(r, o, y);
    hide For, Asked, Rest;
    if y >= FIRST_CID && (y !in r.channels || Asked(o, y)) {
      forall i | 0 <= i < |n.outbound| ensures !For(n.outbound[i], y) {
        if i < |l.outbound| { assert n.outbound[i] == n.outbound[..|l.outbound|][i]; }
      }
    }
  }

  lemma MindedOwn(l: Manager, r: Manager, n: Manager, o: Manager, x: u16)
    requires Minded(l, r, x) && Inquires(l, n, x) && Rest(r.outbound, o.outbound) && Lifecycle.Evolves(l, n)
    requires x in n.channels && n.channels[x].state == WaitConnectResponse && o.outbound != r.outbound ==>
             !Answers(r.outbound[0], x)
    ensures Minded(n, o, x)
  {
    RestKeeps(r, o, x);
    AskedLater(l, n, x);
    if x in l.channels { assert Lifecycle.Forward(l.channels[x], n.channels[x]); }
    hide Asked, Answers, Replied, Lifecycle.Evolves;
  }

  lemma MindedOther(l: Manager, r: Manager, n: Manager, o: Manager, y: u16)
    requires Minded(r, l, y) && o.channels == r.channels && Rest(r.outbound, o.outbound)
    requires |l.outbound| <= |n.outbound| && n.outbound[..|l.outbound|] == l.outbound
    requires o.outbound != r.outbound && Requester(r.outbound[0]) == Some(y) ==> Replied(n.outbound, y)
    ensures Minded(o, n, y)
  {
    RestKeeps(r, o, y);
    AskedLater(l, n, y);
    hide Asked, Answers, Replied, Requester;
  }

  // An end of the right that the left has not heard of is one nobody talks to.
  lemma NewIsUnnamed(l: Manager, r: Manager, y: u16)
    requires Talk(l, r) && y >= FIRST_CID && (y !in r.channels || Asked(r, y))
    ensures Unnamed(l, y) && (y in r.channels ==> !r.channels[y].incoming)
  {
    hide Requester, PduOk;
    if y !in r.channels {
      TalkBack(l, r);
      NobodyTalks(r, l, y);
    } else {
      var i :| 0 <= i < |r.outbound| && Requester(r.outbound[i]) == Some(y);
      QueuedRequester(r, l, i);
    }
  }

  lemma NewCallSilent(l: Manager, r: Manager, op: Lifecycle.Operation, y: u16)
    requires Sane(l, r) && EnginesValid(l) && Allowed(Do(op)) && y >= FIRST_CID && (y !in r.channels || Asked(r, y))
    ensures Silent(l, Lifecycle.Perform(l, op), y)
  {
    NewIsUnnamed(l, r, y);
    TalkProper(l, r);
    hide Talk, Lifecycle.Inv, EnginesValid, Proper, Silent, Asked, Lifecycle.Perform;
    CallSilent(l, op, y);
  }

  lemma NewUnrelated(l: Manager, r: Manager, f: ControlFrame, y: u16)
    requires FrameOk(f, r, l) && Unnamed(l, y) && (y in r.channels ==> !r.channels[y].incoming)
    requires f.ConnectionRequest? ==> f.sourceCid != y
    ensures Unrelated(l, f, y)
  {
    hide Proposal, DecodeOptions;
  }

  lemma NewPduSilent(l: Manager, r: Manager, y: u16)
    requires Sane(l, r) && r.outbound != [] && y >= FIRST_CID && (y !in r.channels || Asked(PollOutbound(r), y))
    ensures Silent(l, ProcessPdu(l, r.outbound[0]).manager, y)
  {
    var p, o := r.outbound[0], PollOutbound(r);
    RestKeeps(r, o, y);
    NewIsUnnamed(l, r, y);
    TalkProper(l, r);
    assert PduOk(p, r, l);
    HeadRequester(l, r, y);
    hide Talk, Lifecycle.Inv, Proper, Silent, Asked, DecodeFrame, ProcessControl, Unnamed, FrameOk, Unrelated,
         PollOutbound;
    if p.cid != SIGNALING_CID {
      hide ProcessPdu;
      DataSilent(l, p, y);
    } else if DecodeFrame(p.payload).Success? {
      NewUnrelated(l, r, DecodeFrame(p.payload).value, y);
      SignalSilent(l, DecodeFrame(p.payload).value, y);
    } else {
      SilentSelf(l, 0, y);
    }
  }

  // The oldest PDU is not the request of an end that is new, or whose request is still to come.
  lemma HeadRequester(l: Manager, r: Manager, y: u16)
    requires Talk(l, r) && r.outbound != [] && (y !in r.channels || Asked(PollOutbound(r), y))
    ensures Requester(r.outbound[0]) != Some(y)
  {
    hide Requester, PduOk, Ends;
    if Requester(r.outbound[0]).Some? {
      QueuedRequester(r, l, 0);
      RestRequesters(l, r);
    }
  }

  lemma AnswerMoves(m: Manager, f: ControlFrame, x: u16)
    requires f.ConnectionResponse? && f.sourceCid == x
    ensures var n := ProcessControl(m, f).manager;
            x in n.channels ==> n.channels[x].state != WaitConnectResponse
  {
    hide TryEncodeOptions, EncodeFrame, Proposal;
  }

  lemma PduMoves(m: Manager, p: Pdu, x: u16)
    requires Answers(p, x)
    ensures var n := ProcessPdu(m, p).manager;
            x in n.channels ==> n.channels[x].state != WaitConnectResponse
  {
    hide ProcessControl, DecodeFrame;
    AnswerMoves(m, DecodeFrame(p.payload).value, x);
  }

  /** Every request is answered, one way or the other. */
  lemma RequestReplied(m: Manager, id: byte, psm: u32, w: u16)
    ensures Replied(ProcessControl(m, ConnectionRequest(id, psm, w)).manager.outbound, w)
  {
    hide FreeCid, Signal, ProposalFrame;
    var k, n := |m.outbound|, ProcessControl(m, ConnectionRequest(id, psm, w)).manager;
    if psm in m.servers && FreeCid(m.channels, FIRST_CID).Some? {
      RequestTaken(m, id, psm, w);
      var z := FreeCid(m.channels, FIRST_CID).value;
      AnswersRead(id, z, w, SUCCESS);
      hide ProcessControl;
      assert n.outbound[k] == Signal(ConnectionResponse(id, z, w, SUCCESS, 0));
    } else {
      var result := if psm !in m.servers then REFUSED_PSM else REFUSED_RESOURCES;
      AnswersRead(id, 0, w, result);
      SignalIs(ConnectionResponse(id, 0, w, result, 0));
      assert n.outbound[k] == Signal(ConnectionResponse(id, 0, w, result, 0));
    }
  }

  lemma SignalIs(f: ControlFrame)
    ensures Signal(f) == Pdu(SIGNALING_CID, EncodeFrame(f))
  {
  }

  lemma AnswersRead(id: byte, z: u16, w: u16, result: u16)
    ensures Answers(Signal(ConnectionResponse(id, z, w, result, 0)), w)
  {
    var f := ConnectionResponse(id, z, w, result, 0);
    WordsLength(Fields(f));
    FramesRead(f);
    hide EncodeFrame, DecodeFrame;
  }

  lemma PduReplies(m: Manager, p: Pdu, y: u16)
    requires Requester(p) == Some(y)
    ensures Replied(ProcessPdu(m, p).manager.outbound, y)
  {
    hide ProcessControl, DecodeFrame, Replied;
    var f := DecodeFrame(p.payload).value;
    RequestReplied(m, f.identifier, f.psm, y);
  }

  // ---------------------------------------------------------------------------
  // Every run without a loss
  // ---------------------------------------------------------------------------

  lemma PairMail(l: Manager, n: Manager, id: byte, next: byte, x: u16, y: u16, c: Channel, spec: ChannelSpec)
    requires Does(l, n, x, c, [ConnectionResponse(id, x, y, SUCCESS, 0), ProposalFrame(next, y, spec)])
             && NoneTo(l.outbound, y)
    ensures Mail(n.outbound, y) == [Answer, Offer]
  {
    var f, p := ConnectionResponse(id, x, y, SUCCESS, 0), ProposalFrame(next, y, spec);
    ResponseFits(id, x, y);
    ConfigurationsFit(next, y, spec);
    ProposalAddress(next, y, spec);
    NoMail(l.outbound, y);
    hide ProposalFrame, Payload, Signal, Mail, NoneTo;
    SignalsTwo(l.outbound, f, p);
    OneLetter(l.outbound, f, y);
    OneLetter(l.outbound + [Signal(f)], p, y);
    assert [] + [Answer] + [Offer] == [Answer, Offer];
  }

  lemma PairedStage(l: Manager, n: Manager, o: Manager, x: u16, y: u16, id: byte, next: byte, psm: u32)
    requires psm in l.servers && Does(l, n, x, IncomingChannel(psm, x, y, l.servers[psm]),
                                      [ConnectionResponse(id, x, y, SUCCESS, 0),
                                       ProposalFrame(next, y, l.servers[psm])])
    requires NoneTo(l.outbound, y) && NoneTo(o.outbound, x) && y in o.channels && Pristine(o.channels[y])
             && !o.channels[y].incoming
    ensures Staged(n, o, x, y, Offered, Unsent)
  {
    NoMail(o.outbound, x);
    hide Mail, NoneTo, Signals, ProposalFrame;
    PairMail(l, n, id, next, x, y, n.channels[x], l.servers[psm]);
  }

  /** The left accepts the right's request: the answer and a proposal are on their way. */
  lemma PairStaged(l: Manager, r: Manager, x: u16, y: u16)
    requires Sane(l, r) && r.outbound != [] && Accepting(l, r.outbound[0]) && x !in l.channels
    requires Accepts(ProcessPdu(l, r.outbound[0]).manager, x, y) && Calm(l, r, x) && Calm(r, l, y)
    ensures Staged(ProcessPdu(l, r.outbound[0]).manager, PollOutbound(r), x, y, Offered, Unsent)
  {
    var p, n, o := r.outbound[0], ProcessPdu(l, r.outbound[0]).manager, PollOutbound(r);
    assert PduOk(p, r, l);
    hide ProcessPdu, Accepting, PduOk, ProposalFrame, Does, Talk, Lifecycle.Inv, NoneTo, Unnamed, Staged;
    var id, next, psm := AcceptanceIs(l, r, p, x, y);
    assert Asked(r, y);
    hide Asked, Requester;
    RequesterCid(l, r, y);
    RestKeeps(r, o, x);
    PairedStage(l, n, o, x, y, id, next, psm);
  }

  lemma RequesterCid(l: Manager, r: Manager, y: u16)
    requires Talk(l, r) && Requests(r, l, y)
    ensures y >= FIRST_CID
  {
    hide QueueOk, EndOk;
  }

  /** A request that meets a server and a free CID makes two ends of one channel. */
  lemma AcceptedIsCouple(l: Manager, r: Manager, x: u16)
    requires Talk(l, r) && r.outbound != [] && Accepting(l, r.outbound[0]) && FreeCid(l.channels, FIRST_CID) == Some(x)
    ensures Requester(r.outbound[0]).Some?
    ensures var n, y := ProcessPdu(l, r.outbound[0]).manager, Requester(r.outbound[0]).value;
            Couple(n, PollOutbound(r), x, y)
                && n.channels[x].spec == l.servers[DecodeFrame(r.outbound[0].payload).value.psm]
  {
    var f := DecodeFrame(r.outbound[0].payload).value;
    assert PduOk(r.outbound[0], r, l);
    hide Ends, QueueOk, DecodeFrame, FreeCid, ProcessControl, Signals, ProposalFrame, Unnamed;
    RequestTaken(l, f.identifier, f.psm, f.sourceCid);
  }

  predicate Opening(s: System, x: u16, y: u16) {
    var l, r := s.left.manager, s.right.manager;
    && Sane(l, r) && Calm(l, r, x) && Calm(r, l, y) && Minded(l, r, x) && Minded(r, l, y)
    && (Couple(l, r, x, y) && Agreed(l, r, x, y) ==> exists a, b :: Staged(l, r, x, y, a, b))
  }

  lemma OpeningBack(s: System, x: u16, y: u16)
    requires Opening(s, x, y)
    ensures Opening(Swap(s), y, x)
  {
    var l, r := s.left.manager, s.right.manager;
    TalkBack(l, r);
    hide Talk, Lifecycle.Inv, Calm, Minded, Staged;
    if Couple(l, r, x, y) && Agreed(l, r, x, y) {
      var a, b :| Staged(l, r, x, y, a, b);
      StagedBack(l, r, x, y, a, b);
    }
  }

  // Any call but closing the channel; no PDU is lost.
  predicate Gentle(a: Action, x: u16) { Allowed(a) && !a.Lose? && a != Do(Lifecycle.Close(x)) }

  lemma CallOpening(s: System, x: u16, y: u16, op: Lifecycle.Operation)
    requires Opening(s, x, y) && Gentle(Do(op), x) && EnginesValid(s.left.manager)
    ensures var l, r, n := s.left.manager, s.right.manager, Lifecycle.Perform(s.left.manager, op);
            && Calm(n, r, x) && Calm(r, n, y) && Minded(n, r, x) && Minded(r, n, y)
            && (Couple(l, r, x, y) && Agreed(l, r, x, y) ==> exists a, b :: Staged(n, r, x, y, a, b))
  {
    var l, r, n := s.left.manager, s.right.manager, Lifecycle.Perform(s.left.manager, op);
    hide Lifecycle.Perform, Talk, Lifecycle.Inv, EnginesValid, Calm, Minded, Staged, Inquires, Silent, Asked,
         KeepsControl, Grows, Lifecycle.Evolves;
    CallSane(l, r, op);
    CallGrows(l, r, op);
    CallInquires(l, r, op, x);
    CallControl(l, op, x);
    GrownCids(l, n, x);
    CalmOwn(l, r, n, r, x);
    if y >= FIRST_CID && (y !in r.channels || Asked(r, y)) { NewCallSilent(l, r, op, y); }
    CalmOther(l, r, n, r, y);
    MindedOwn(l, r, n, r, x);
    InquiresFirst(l, n, x);
    MindedOther(l, r, n, r, y);
    if Couple(l, r, x, y) && Agreed(l, r, x, y) {
      var a, b :| Staged(l, r, x, y, a, b);
      CallStaged(l, r, x, y, a, b, op);
    }
  }

  lemma GrownCids(l: Manager, n: Manager, x: u16)
    requires Lifecycle.Inv(n) && Grows(l, n)
    ensures (x in l.channels ==> x in n.channels) && (x in n.channels ==> x >= FIRST_CID)
  {
    if x in n.channels { assert Lifecycle.ChannelOk(x, n.channels[x]); }
    hide Lifecycle.Inv;
  }

  lemma InquiresFirst(l: Manager, n: Manager, x: u16)
    requires Inquires(l, n, x)
    ensures |l.outbound| <= |n.outbound| && n.outbound[..|l.outbound|] == l.outbound
  {
    hide Asked;
  }

  // An end whose request is still on its way is left as it is.
  lemma AskedPduControl(l: Manager, r: Manager, x: u16)
    requires Calm(l, r, x) && Asked(l, x) && r.outbound != [] && x >= FIRST_CID
    ensures KeepsControl(l, ProcessPdu(l, r.outbound[0]).manager, x)
  {
    var p := r.outbound[0];
    assert !For(p, x);
    hide Calm, Asked, DecodeFrame, ProcessControl, Addressee;
    if p.cid != SIGNALING_CID {
      hide ProcessPdu;
      DataControl(l, p, x);
    } else if DecodeFrame(p.payload).Success? {
      SignalControl(l, DecodeFrame(p.payload).value, x);
    }
  }

  lemma ReceiveOpening(s: System, x: u16, y: u16)
    requires Opening(s, x, y) && s.right.manager.outbound != []
    ensures var l, r := s.left.manager, s.right.manager;
            var n, o := ProcessPdu(l, r.outbound[0]).manager, PollOutbound(r);
            && Calm(n, o, x) && Calm(o, n, y) && Minded(n, o, x) && Minded(o, n, y)
            && (Couple(l, r, x, y) && Agreed(l, r, x, y) ==> exists a, b :: Staged(n, o, x, y, a, b))
  {
    var l, r := s.left.manager, s.right.manager;
    var p, n, o := r.outbound[0], ProcessPdu(l, r.outbound[0]).manager, PollOutbound(r);
    assert PduOk(p, r, l);
    hide ProcessPdu, Talk, Lifecycle.Inv, Calm, Minded, Staged, Inquires, Silent, Asked, KeepsControl, Grows,
         Lifecycle.Evolves, Answers, Replied, Requester, PduOk, Proper, NoneAccepted, Accepting;
    TalkProper(l, r);
    ReceiveSane(l, r);
    PduGrows(l, r, p);
    PduInquires(l, p, x);
    GrownCids(l, n, x);
    assert Rest(r.outbound, o.outbound);
    if Asked(l, x) {
      AskedCid(l, r, x);
      AskedPduControl(l, r, x);
    }
    CalmOwn(l, r, n, o, x);
    if y >= FIRST_CID && (y !in r.channels || Asked(o, y)) { NewPduSilent(l, r, y); }
    CalmOther(l, r, n, o, y);
    if Answers(p, x) { PduMoves(l, p, x); }
    MindedOwn(l, r, n, o, x);
    InquiresFirst(l, n, x);
    if Requester(p) == Some(y) { PduReplies(l, p, y); }
    MindedOther(l, r, n, o, y);
    if Couple(l, r, x, y) && Agreed(l, r, x, y) {
      var a, b :| Staged(l, r, x, y, a, b);
      var c, d := PduStaged(l, r, x, y, a, b);
    }
  }

  lemma AskedCid(l: Manager, r: Manager, x: u16)
    requires Talk(l, r) && Asked(l, x)
    ensures x >= FIRST_CID
  {
    hide Requester, PduOk, EndOk;
    var i :| 0 <= i < |l.outbound| && Requester(l.outbound[i]) == Some(x);
    QueuedRequester(l, r, i);
  }

  /** Whatever the left does. */
  lemma ActOpening(s: System, x: u16, y: u16, a: Action)
    requires Opening(s, x, y) && Gentle(a, x)
    ensures EnginesValid(s.left.manager) && Opening(Act(s, x, a), x, y)
  {
    var l, r := s.left.manager, s.right.manager;
    SaneEngines(l, r);
    ActSane(s, x, a);
    var u := Act(s, x, a);
    var n, o := u.left.manager, u.right.manager;
    StillOpening(s, u, x, y, a);
    hide Act, Talk, Lifecycle.Inv, EnginesValid, Calm, Minded, Staged, Grows, NoneAccepted;
    if Couple(n, o, x, y) && Agreed(n, o, x, y) {
      GrowsCouple(l, r, n, o, x, y);
      if !Couple(l, r, x, y) { NewStaged(s, u, x, y, a); }
    }
  }

  // The invariant, but for a channel that has just got its second end.
  lemma StillOpening(s: System, u: System, x: u16, y: u16, a: Action)
    requires Opening(s, x, y) && Gentle(a, x) && EnginesValid(s.left.manager) && u == Act(s, x, a)
    ensures var l, r, n, o := s.left.manager, s.right.manager, u.left.manager, u.right.manager;
            && Calm(n, o, x) && Calm(o, n, y) && Minded(n, o, x) && Minded(o, n, y)
            && (Couple(l, r, x, y) && Agreed(l, r, x, y) ==> exists a, b :: Staged(n, o, x, y, a, b))
  {
    hide Calm, Minded, Staged, Sane, EnginesValid, Couple;
    match a
    case Do(op) =>
      hide Lifecycle.Perform;
      CallOpening(s, x, y, op);
    case Receive =>
      hide ProcessPdu;
      if s.right.manager.outbound != [] { ReceiveOpening(s, x, y); }
  }

  lemma NewStaged(s: System, u: System, x: u16, y: u16, a: Action)
    requires Opening(s, x, y) && EnginesValid(s.left.manager) && u == Act(s, x, a)
    requires x !in s.left.manager.channels && Accepts(u.left.manager, x, y)
    requires NoneAccepted(s.left.manager, u.left.manager) || Requested(s, a)
    ensures Staged(u.left.manager, u.right.manager, x, y, Offered, Unsent)
  {
    hide Staged, Calm, Minded, Sane, EnginesValid, Accepting;
    ReceiveManagers(s, x);
    hide Act;
    PairStaged(s.left.manager, s.right.manager, x, y);
  }

  lemma MadeOpening(s: System, x: u16, y: u16)
    requires Made(s)
    ensures Opening(s, x, y)
  {
  }

  predicate GentleMove(move: Move, x: u16, y: u16) { Gentle(move.action, if move.byLeft then x else y) }

  lemma MoveOpening(s: System, x: u16, y: u16, move: Move)
    requires Opening(s, x, y) && GentleMove(move, x, y)
    ensures EnginesValid(s.left.manager) && EnginesValid(s.right.manager) && Opening(Apply(s, x, y, move), x, y)
  {
    SaneEngines(s.left.manager, s.right.manager);
    hide Opening, Act, EnginesValid, Gentle;
    if move.byLeft {
      ActOpening(s, x, y, move.action);
    } else {
      OpeningBack(s, x, y);
      ActOpening(Swap(s), y, x, move.action);
      OpeningBack(Act(Swap(s), y, move.action), y, x);
    }
  }

  lemma {:induction false} RunOpening(states: seq<System>, moves: seq<Move>, x: u16, y: u16, n: nat)
    requires Run(states, moves, x, y) && Made(states[0]) && n < |states|
             && forall move <- moves[..n] :: GentleMove(move, x, y)
    ensures Opening(states[n], x, y)
  {
    hide Opening, Apply, EnginesValid, GentleMove;
    if n == 0 {
      MadeOpening(states[0], x, y);
    } else {
      assert moves[..n][n - 1] == moves[n - 1];
      assert forall move <- moves[..n - 1] :: move in moves[..n];
      RunOpening(states, moves, x, y, n - 1);
      MoveOpening(states[n - 1], x, y, moves[n - 1]);
      assert states[n - 1 + 1] == Apply(states[n - 1], x, y, moves[n - 1]);
    }
  }

  /**
    * Two managers, from the moment they are made, over links that lose nothing, in every order of calls and deliveries,
    * on any channels, as long as nobody closes the ends `x` and `y`. Once everything that was said has arrived, the end
    * `x` is not waiting for an answer; and if `x` and `y` are the ends of a channel and agree, it is open at both.
    */
  lemma EveryOrderOpens(states: seq<System>, moves: seq<Move>, x: u16, y: u16, n: nat)
    requires Run(states, moves, x, y) && Made(states[0]) && n < |states|
             && forall move <- moves[..n] :: GentleMove(move, x, y)
    requires states[n].left.manager.outbound == states[n].right.manager.outbound == []
    ensures var l, r := states[n].left.manager, states[n].right.manager;
            && (x in l.channels ==> l.channels[x].state != WaitConnectResponse)
            && (Couple(l, r, x, y) && Agreed(l, r, x, y) ==> l.channels[x].state == Open && r.channels[y].state == Open)
  {
    hide Run, Made, GentleMove, Sane, Calm, Couple, Staged;
    RunOpening(states, moves, x, y, n);
    var l, r := states[n].left.manager, states[n].right.manager;
    if Couple(l, r, x, y) && Agreed(l, r, x, y) {
      var a, b :| Staged(l, r, x, y, a, b);
      StagedOpens(l, r, x, y, a, b);
    }
  }
}
