/**
  * Who talks to whom: two managers over links that lose PDUs, under any calls. Every
  * end names an end of the peer that names it back, no two ends share one, and every
  * queued PDU comes from an end that names the one it is for.
  */
module Conversation {
  import opened Bytes
  import opened Signaling
  import opened Channels
  import Lifecycle = ChannelLifecycle
  import Ertm
  import E = ErtmLink
  import Fcs

  // ---------------------------------------------------------------------------
  // The invariant
  // ---------------------------------------------------------------------------

  // The end `z` of `l`: an acceptor names its requester, a requester the acceptor that names it, or nobody yet.
  predicate EndOk(l: Manager, r: Manager, z: u16)
    requires z in l.channels
  {
    var c := l.channels[z];
    var to := c.destinationCid;
    if c.incoming then to in r.channels && !r.channels[to].incoming
    else to == 0 || (to in r.channels && r.channels[to].incoming && r.channels[to].destinationCid == z)
  }

  predicate SameRequester(c: Channel, d: Channel) { c.incoming && d.incoming && c.destinationCid == d.destinationCid }

  predicate Ends(l: Manager, r: Manager) {
    && (forall z <- l.channels :: z >= FIRST_CID && EndOk(l, r, z))
    && (forall z, w :: z in l.channels && w in l.channels && SameRequester(l.channels[z], l.channels[w]) ==> z == w)
  }

  // No end of `r` names `z`.
  predicate Unnamed(r: Manager, z: u16) { forall w <- r.channels :: r.channels[w].destinationCid != z }

  // Some end of `l` names `to`.
  predicate Names(l: Manager, to: u16) { exists z <- l.channels :: l.channels[z].destinationCid == to }

  predicate Requests(l: Manager, r: Manager, z: u16) {
    z in l.channels && !l.channels[z].incoming && l.channels[z].destinationCid == 0 && Unnamed(r, z)
  }

  predicate Accepts(l: Manager, z: u16, w: u16) {
    z in l.channels && l.channels[z].incoming && l.channels[z].destinationCid == w
  }

  // A proposal to `to` is the specification of an end that names it.
  predicate Proposes(l: Manager, to: u16, flags: u16, options: seq<byte>) {
    && to != 0 && flags == 0
    && exists z <- l.channels ::
         l.channels[z].destinationCid == to && DecodeOptions(options) == Success(Proposal(l.channels[z].spec))
  }

  predicate FrameOk(f: ControlFrame, l: Manager, r: Manager) {
    match f
    case ConnectionRequest(_, _, z) => Requests(l, r, z)
    case ConnectionResponse(_, z, w, result, _) => result == SUCCESS ==> Accepts(l, z, w)
    case ConfigureRequest(_, to, flags, options) => Proposes(l, to, flags, options)
    case _ => true
  }

  // What `l` may have queued for `r`.
  predicate PduOk(p: Pdu, l: Manager, r: Manager) {
    if p.cid != SIGNALING_CID then p.cid == 0 || Names(l, p.cid)
    else
      var f := DecodeFrame(p.payload);
      f.Success? ==> FrameOk(f.value, l, r)
  }

  // The requester of a connection request.
  function Requester(p: Pdu): Option<u16> {
    if p.cid != SIGNALING_CID then None
    else
      var f := DecodeFrame(p.payload);
      if f.Success? && f.value.ConnectionRequest? then Some(f.value.sourceCid) else None
  }

  predicate QueueOk(l: Manager, r: Manager) {
    && (forall i :: 0 <= i < |l.outbound| ==> PduOk(l.outbound[i], l, r))
    && (forall i, j :: 0 <= i < j < |l.outbound| && Requester(l.outbound[i]).Some? ==>
          Requester(l.outbound[i]) != Requester(l.outbound[j]))
  }

  predicate Talk(l: Manager, r: Manager) { Ends(l, r) && Ends(r, l) && QueueOk(l, r) && QueueOk(r, l) }

  lemma TalkBack(l: Manager, r: Manager)
    requires Talk(l, r)
    ensures Talk(r, l)
  {
  }

  // ---------------------------------------------------------------------------
  // Steps that introduce nobody
  // ---------------------------------------------------------------------------

  // The parts of a channel that say whom it talks to.
  predicate SameEnd(c: Channel, d: Channel) {
    d.incoming == c.incoming && d.destinationCid == c.destinationCid && d.spec == c.spec
  }

  // Signaling that introduces nobody and proposes nothing.
  predicate Minor(p: Pdu) {
    && p.cid == SIGNALING_CID
    && var f := DecodeFrame(p.payload);
    f.Success? ==> !f.value.ConnectionRequest? && !f.value.ConfigureRequest?
                   && (f.value.ConnectionResponse? ==> f.value.result != SUCCESS)
  }

  // A PDU that the end `z` of `m` may add to the queue.
  predicate From(p: Pdu, m: Manager, z: u16) {
    Minor(p) || (p.cid != SIGNALING_CID && z in m.channels && p.cid == m.channels[z].destinationCid)
  }

  // From `m` to `n` only the channel `z` changed, not in whom it names, and only it spoke.
  predicate Murmurs(m: Manager, n: Manager, z: u16) {
    && n.channels.Keys == m.channels.Keys
    && (forall w <- m.channels :: SameEnd(m.channels[w], n.channels[w]) && (w != z ==> n.channels[w] == m.channels[w]))
    && |m.outbound| <= |n.outbound| && n.outbound[..|m.outbound|] == m.outbound
    && (forall i :: |m.outbound| <= i < |n.outbound| ==> From(n.outbound[i], m, z))
  }

  // The same for any number of channels.
  predicate Quiet(m: Manager, n: Manager) {
    && n.channels.Keys == m.channels.Keys && (forall w <- m.channels :: SameEnd(m.channels[w], n.channels[w]))
    && |m.outbound| <= |n.outbound| && n.outbound[..|m.outbound|] == m.outbound
    && (forall i :: |m.outbound| <= i < |n.outbound| ==>
          Minor(n.outbound[i]) || (n.outbound[i].cid != SIGNALING_CID && Names(m, n.outbound[i].cid)))
  }

  lemma MurmursQuiet(m: Manager, n: Manager, z: u16)
    requires Murmurs(m, n, z)
    ensures Quiet(m, n)
  {
    hide Minor, SameEnd;
  }

  lemma QuietTwice(m: Manager, n: Manager, o: Manager)
    requires Quiet(m, n) && Quiet(n, o)
    ensures Quiet(m, o)
  {
    hide Minor;
    assert o.outbound[..|m.outbound|] == o.outbound[..|n.outbound|][..|m.outbound|];
    forall i | |m.outbound| <= i < |o.outbound|
      ensures Minor(o.outbound[i]) || (o.outbound[i].cid != SIGNALING_CID && Names(m, o.outbound[i].cid))
    {
      if i < |n.outbound| { assert o.outbound[i] == o.outbound[..|n.outbound|][i] == n.outbound[i]; }
    }
  }

  // Whether a PDU is fine depends only on whom the ends name.
  lemma PduOkSame(p: Pdu, l: Manager, r: Manager, l': Manager, r': Manager)
    requires PduOk(p, l, r)
    requires l'.channels.Keys == l.channels.Keys && forall w <- l.channels :: SameEnd(l.channels[w], l'.channels[w])
    requires r'.channels.Keys == r.channels.Keys && forall w <- r.channels :: SameEnd(r.channels[w], r'.channels[w])
    ensures PduOk(p, l', r')
  {
    hide DecodeFrame, DecodeOptions, Proposal;
  }

  lemma MinorOk(p: Pdu, l: Manager, r: Manager)
    requires Minor(p)
    ensures PduOk(p, l, r) && Requester(p).None?
  {
    hide DecodeFrame;
  }

  lemma EndsSame(l: Manager, r: Manager, l': Manager, r': Manager)
    requires Ends(l, r)
    requires l'.channels.Keys == l.channels.Keys && forall w <- l.channels :: SameEnd(l.channels[w], l'.channels[w])
    requires r'.channels.Keys == r.channels.Keys && forall w <- r.channels :: SameEnd(r.channels[w], r'.channels[w])
    ensures Ends(l', r')
  {
  }

  /** Steps that introduce nobody keep the conversation. */
  lemma QuietTalk(l: Manager, r: Manager, n: Manager)
    requires Talk(l, r) && Quiet(l, n)
    ensures Talk(n, r)
  {
    hide PduOk, Minor, Requester, Ends;
    EndsSame(l, r, n, r);
    EndsSame(r, l, r, n);
    forall i | 0 <= i < |r.outbound| ensures PduOk(r.outbound[i], r, n) { PduOkSame(r.outbound[i], r, l, r, n); }
    forall i | 0 <= i < |n.outbound|
      ensures PduOk(n.outbound[i], n, r)
      ensures i < |l.outbound| ==> n.outbound[i] == l.outbound[i]
      ensures i >= |l.outbound| ==> Requester(n.outbound[i]).None?
    {
      if i < |l.outbound| {
        assert n.outbound[i] == n.outbound[..|l.outbound|][i];
        PduOkSame(n.outbound[i], l, r, n, r);
      } else if Minor(n.outbound[i]) {
        MinorOk(n.outbound[i], n, r);
      } else {
        NamedOk(n.outbound[i], l, n, r);
      }
    }
  }

  lemma NamedOk(p: Pdu, l: Manager, n: Manager, r: Manager)
    requires p.cid != SIGNALING_CID && Names(l, p.cid)
    requires n.channels.Keys == l.channels.Keys && forall w <- l.channels :: SameEnd(l.channels[w], n.channels[w])
    ensures PduOk(p, n, r) && Requester(p).None?
  {
    var z :| z in l.channels && l.channels[z].destinationCid == p.cid;
    assert z in n.channels && n.channels[z].destinationCid == p.cid;
  }

  /** So does losing a PDU, or taking the oldest off the link. */
  lemma LoseTalk(l: Manager, r: Manager, n: Manager, k: nat)
    requires Talk(l, r) && n == l.(outbound := E.Without(l.outbound, k))
    ensures Talk(n, r)
  {
    hide PduOk, Requester, Ends;
    EndsSame(l, r, n, r);
    EndsSame(r, l, r, n);
    forall i | 0 <= i < |r.outbound| ensures PduOk(r.outbound[i], r, n) { PduOkSame(r.outbound[i], r, l, r, n); }
    if k < |l.outbound| {
      forall i | 0 <= i < |n.outbound| ensures PduOk(n.outbound[i], n, r) {
        PduOkSame(l.outbound[if i < k then i else i + 1], l, r, n, r);
      }
    } else {
      forall i | 0 <= i < |n.outbound| ensures PduOk(n.outbound[i], n, r) { PduOkSame(l.outbound[i], l, r, n, r); }
    }
  }

  // ---------------------------------------------------------------------------
  // Calls and PDUs that introduce nobody
  // ---------------------------------------------------------------------------

  lemma MurmursSame(m: Manager, n: Manager, z: u16)
    requires n.channels == m.channels && n.outbound == m.outbound
    ensures Murmurs(m, n, z)
  {
  }

  lemma MurmursUpdate(m: Manager, n: Manager, z: u16, c: Channel)
    requires z in m.channels && SameEnd(m.channels[z], c) && n.channels == m.channels[z := c]
             && n.outbound == m.outbound
    ensures Murmurs(m, n, z)
  {
  }

  lemma MurmursSpeak(m: Manager, n: Manager, o: Manager, z: u16, p: Pdu)
    requires Murmurs(m, n, z) && o.channels == n.channels && o.outbound == n.outbound + [p] && From(p, m, z)
    ensures Murmurs(m, o, z)
  {
    hide Minor;
  }

  lemma DecodedCode(code: byte, id: byte, p: seq<byte>)
    ensures DecodePayload(code, id, p).Success? ==> Code(DecodePayload(code, id, p).value) == code
  {
    hide ReadWords, DecodePsm;
  }

  lemma EncodedCode(f: ControlFrame)
    ensures DecodeFrame(EncodeFrame(f)).Success? ==> Code(DecodeFrame(EncodeFrame(f)).value) == Code(f)
  {
    hide DecodePayload, Payload;
    WireReads(f);
    DecodedCode(Code(f), f.identifier, ReadBack(f));
  }

  // Frames that introduce nobody, as they are sent.
  lemma MinorSignal(f: ControlFrame)
    requires f.ConfigureResponse? || f.DisconnectionRequest? || f.DisconnectionResponse? || f.EchoResponse?
             || f.InformationRequest? || f.InformationResponse? || (f.ConnectionResponse? && f.result != SUCCESS)
    ensures Minor(Pdu(SIGNALING_CID, EncodeFrame(f)))
  {
    EncodedCode(f);
    hide EncodeFrame, DecodeFrame;
    if f.ConnectionResponse? {
      assert |Payload(f)| <= 0xFFFF by { WordsLength(Fields(f)); }
      SignalingRoundTrip(f);
    }
  }

  lemma MurmursSignal(m: Manager, n: Manager, z: u16, f: ControlFrame)
    requires Murmurs(m, n, z) && Minor(Pdu(SIGNALING_CID, EncodeFrame(f)))
    ensures Murmurs(m, QueueControl(n, f), z)
  {
    hide EncodeFrame, Murmurs, Minor;
    MurmursSpeak(m, n, QueueControl(n, f), z, Pdu(SIGNALING_CID, EncodeFrame(f)));
  }

  lemma {:induction false} FramesMurmur(m: Manager, n: Manager, z: u16, to: u16, fcs: bool, frames: seq<seq<byte>>)
    requires Murmurs(m, n, z) && z in m.channels && to == m.channels[z].destinationCid != SIGNALING_CID
    ensures Murmurs(m, QueueFrames(n, to, fcs, frames).manager, z)
    decreases |frames|
  {
    hide Fcs.AppendFcs, Murmurs;
    if frames != [] {
      var payload := if fcs then Fcs.AppendFcs(to, frames[0]) else Success(frames[0]);
      if payload.Success? {
        var p := Pdu(to, payload.value);
        var o := n.(outbound := n.outbound + [p]);
        MurmursSpeak(m, n, o, z, p);
        FramesMurmur(m, o, z, to, fcs, frames[1..]);
      }
    }
  }

  lemma EngineMurmurs(m: Manager, z: u16, step: Ertm.Step)
    requires z in m.channels && m.channels[z].destinationCid != SIGNALING_CID
    ensures Murmurs(m, AfterEngine(m, z, step).manager, z)
  {
    hide QueueFrames, Murmurs;
    var c, e := m.channels[z], step.engine;
    MurmursUpdate(m, m.(channels := m.channels[z := c.(ertm := Some(e))]), z, c.(ertm := Some(e)));
    var d := c.(ertm := Some(Drained(e)), received := c.received + e.received);
    var n := m.(channels := m.channels[z := d]);
    assert m.channels[z := c.(ertm := Some(e))][z := d] == m.channels[z := d];
    MurmursUpdate(m, n, z, d);
    FramesMurmur(m, n, z, c.destinationCid, c.fcsEnabled, e.outbound);
  }

  // No end of `m` names the signaling channel.
  predicate Proper(m: Manager) { forall z <- m.channels :: m.channels[z].destinationCid != SIGNALING_CID }

  lemma TalkProper(l: Manager, r: Manager)
    requires Talk(l, r)
    ensures Proper(l)
  {
    hide QueueOk;
    forall z <- l.channels ensures l.channels[z].destinationCid != SIGNALING_CID { assert EndOk(l, r, z); }
  }

  // The channel a call is about.
  function About(op: Lifecycle.Operation): u16 {
    match op
    case SendSdu(cid, _) => cid
    case Close(cid) => cid
    case SetBusy(cid, _) => cid
    case TakeReceived(cid) => cid
    case _ => 0
  }

  predicate Introduces(op: Lifecycle.Operation) { op.ConnectTo? || op.Process? || op.TakeOutbound? || op.Elapse? }

  lemma SendMurmurs(m: Manager, cid: u16, sdu: seq<byte>)
    requires EnginesValid(m) && Proper(m)
    ensures Murmurs(m, Send(m, cid, sdu).manager, cid)
  {
    hide AfterEngine, Ertm.SendSdu, Murmurs, Ertm.ValidConfig;
    MurmursSame(m, m, cid);
    if cid in m.channels && m.channels[cid].state == Open {
      var c := m.channels[cid];
      if c.ertm.Some? {
        EngineMurmurs(m, cid, Ertm.SendSdu(c.ertm.value, sdu));
      } else if |sdu| <= c.peerMtu {
        MurmursSpeak(m, m, Send(m, cid, sdu).manager, cid, Pdu(c.destinationCid, sdu));
      }
    }
  }

  lemma CloseMurmurs(m: Manager, cid: u16)
    ensures Murmurs(m, Disconnect(m, cid).manager, cid)
  {
    hide Murmurs, EncodeFrame;
    MurmursSame(m, m, cid);
    if cid in m.channels && m.channels[cid].state == Open {
      var c, id := m.channels[cid], NextIdentifier(m.identifier);
      var n := m.(channels := m.channels[cid := c.(state := WaitDisconnect)], identifier := id);
      MurmursUpdate(m, n, cid, c.(state := WaitDisconnect));
      MinorSignal(DisconnectionRequest(id, c.destinationCid, cid));
      MurmursSignal(m, n, cid, DisconnectionRequest(id, c.destinationCid, cid));
    }
  }

  /** Calls that introduce nobody. */
  lemma CallMurmurs(m: Manager, op: Lifecycle.Operation)
    requires EnginesValid(m) && Proper(m) && !Introduces(op)
    ensures Murmurs(m, Lifecycle.Perform(m, op), About(op))
  {
    hide Murmurs, Send, Disconnect, AfterEngine, EncodeFrame, FreePsm, Ertm.SetReceiverBusy, Ertm.ValidConfig;
    var n := Lifecycle.Perform(m, op);
    match op
    case Register(_, _) => MurmursSame(m, n, 0);
    case Unregister(_) => MurmursSame(m, n, 0);
    case SendSdu(cid, sdu) => SendMurmurs(m, cid, sdu);
    case Close(cid) => CloseMurmurs(m, cid);
    case SetBusy(cid, busy) =>
      if cid in m.channels && m.channels[cid].ertm.Some? {
        EngineMurmurs(m, cid, Ertm.SetReceiverBusy(m.channels[cid].ertm.value, busy));
      } else {
        MurmursSame(m, n, cid);
      }
    case Inquire(infoType) =>
      var f := InformationRequest(NextIdentifier(m.identifier), infoType);
      MurmursSame(m, m.(identifier := NextIdentifier(m.identifier)), 0);
      MinorSignal(f);
      MurmursSignal(m, m.(identifier := NextIdentifier(m.identifier)), 0, f);
    case TakeAccepted => MurmursSame(m, n, 0);
    case TakeReceived(cid) =>
      if cid in m.channels && m.channels[cid].received != [] {
        MurmursUpdate(m, n, cid, m.channels[cid].(received := m.channels[cid].received[1..]));
      } else {
        MurmursSame(m, n, cid);
      }
  }

  lemma {:induction false} TickQuiet(m: Manager, cid: nat, ticks: u32)
    requires Proper(m) && cid <= 0x1_0000
    ensures Quiet(m, Tick(m, cid, ticks).manager)
    decreases 0x1_0000 - cid
  {
    hide AfterEngine, Ertm.Tick, Quiet, Murmurs;
    MurmursSame(m, m, 0);
    MurmursQuiet(m, m, 0);
    if cid <= 0xFFFF {
      if cid in m.channels && m.channels[cid].ertm.Some? {
        var step := Ertm.Tick(m.channels[cid].ertm.value, ticks);
        EngineMurmurs(m, cid, step);
        var n := AfterEngine(m, cid, step).manager;
        MurmursQuiet(m, n, cid);
        QuietProper(m, n);
        if AfterEngine(m, cid, step).error.None? {
          TickQuiet(n, cid + 1, ticks);
          QuietTwice(m, n, Tick(n, cid + 1, ticks).manager);
        }
      } else {
        TickQuiet(m, cid + 1, ticks);
      }
    }
  }

  lemma QuietProper(m: Manager, n: Manager)
    requires Proper(m) && Quiet(m, n)
    ensures Proper(n)
  {
    hide Minor;
  }

  /** A PDU of a channel speaks for that channel only. */
  lemma DataMurmurs(m: Manager, p: Pdu)
    requires Proper(m) && p.cid != SIGNALING_CID
    ensures Murmurs(m, ProcessPdu(m, p).manager, p.cid)
  {
    hide Murmurs, AfterEngine, Ertm.ReceiveFrame, Fcs.VerifyAndStripFcs;
    MurmursSame(m, m, p.cid);
    if p.cid in m.channels && m.channels[p.cid].state == Open {
      var c := m.channels[p.cid];
      if c.ertm.Some? {
        var payload := if c.fcsEnabled then Fcs.VerifyAndStripFcs(p.cid, p.payload) else Success(p.payload);
        if payload.Success? { EngineMurmurs(m, p.cid, Ertm.ReceiveFrame(c.ertm.value, payload.value)); }
      } else if |p.payload| <= c.spec.mtu {
        MurmursUpdate(m, ProcessPdu(m, p).manager, p.cid, c.(received := c.received + [p.payload]));
      }
    }
  }

  // ---------------------------------------------------------------------------
  // Signaling
  // ---------------------------------------------------------------------------

  // Nothing but signaling was queued, and the data of the channel `z` is as it was.
  predicate OnlySignals(m: Manager, n: Manager) {
    |m.outbound| <= |n.outbound| && forall i :: |m.outbound| <= i < |n.outbound| ==> n.outbound[i].cid == SIGNALING_CID
  }

  predicate SameData(c: Channel, d: Channel) {
    d.ertm == c.ertm && d.received == c.received && d.fcsEnabled == c.fcsEnabled
  }

  predicate KeepsData(m: Manager, n: Manager, z: u16) {
    z in m.channels ==> z in n.channels && SameData(m.channels[z], n.channels[z])
  }

  // From `m` to `n` the channel `z` changed in nothing but its state and what was said about it.
  predicate Nods(m: Manager, n: Manager, z: u16) { Murmurs(m, n, z) && OnlySignals(m, n) && KeepsData(m, n, z) }

  lemma NodsSame(m: Manager, n: Manager, z: u16)
    requires n.channels == m.channels && n.outbound == m.outbound
    ensures Nods(m, n, z)
  {
  }

  lemma NodsUpdate(m: Manager, n: Manager, z: u16, c: Channel)
    requires z in m.channels && SameEnd(m.channels[z], c) && SameData(m.channels[z], c)
    requires n.channels == m.channels[z := c] && n.outbound == m.outbound
    ensures Nods(m, n, z)
  {
    MurmursUpdate(m, n, z, c);
    hide Murmurs;
  }

  lemma NodsSignal(m: Manager, n: Manager, z: u16, f: ControlFrame)
    requires Nods(m, n, z) && Minor(Pdu(SIGNALING_CID, EncodeFrame(f)))
    ensures Nods(m, QueueControl(n, f), z)
  {
    hide EncodeFrame, Murmurs, Minor;
    MurmursSignal(m, n, z, f);
  }

  // The channel a frame is about.
  function Addressee(f: ControlFrame): u16 {
    match f
    case ConnectionResponse(_, _, source, _, _) => source
    case ConfigureRequest(_, destination, _, _) => destination
    case ConfigureResponse(_, source, _, _, _) => source
    case DisconnectionRequest(_, destination, _) => destination
    case DisconnectionResponse(_, _, source) => source
    case _ => 0
  }

  lemma OpeningNods(m: Manager, n: Manager, z: u16)
    requires Nods(m, n, z)
    ensures Nods(m, MaybeOpen(n, z), z)
  {
    hide Minor;
  }

  lemma ConfiguredNods(m: Manager, cid: u16, result: u16)
    ensures Nods(m, OnConfigureResponse(m, cid, result).manager, cid)
  {
    hide Nods, MaybeOpen;
    NodsSame(m, m, cid);
    if cid in m.channels {
      var c := m.channels[cid];
      var d := if result == SUCCESS then c.(responseReceived := true)
          else c.(connectionResult := Some(result), state := Closed);
      var n := m.(channels := m.channels[cid := d]);
      NodsUpdate(m, n, cid, d);
      OpeningNods(m, n, cid);
    }
  }

  lemma ClosedNods(m: Manager, id: byte, cid: u16, other: u16)
    ensures Nods(m, OnDisconnectionRequest(m, id, cid, other).manager, cid)
    ensures Nods(m, OnDisconnectionResponse(m, other, cid).manager, cid)
  {
    hide Nods, EncodeFrame, Minor;
    NodsSame(m, m, cid);
    if cid in m.channels {
      var d := m.channels[cid].(state := Closed);
      var n := m.(channels := m.channels[cid := d]);
      NodsUpdate(m, n, cid, d);
      MinorSignal(DisconnectionResponse(id, cid, other));
      NodsSignal(m, n, cid, DisconnectionResponse(id, cid, other));
    }
  }

  lemma RefusedNods(m: Manager, id: byte, psm: u32, remote: u16, z: u16)
    requires psm !in m.servers || FreeCid(m.channels, FIRST_CID).None?
    ensures Nods(m, OnConnectionRequest(m, id, psm, remote).manager, z)
  {
    hide Nods, EncodeFrame, Minor, FreeCid;
    NodsSame(m, m, z);
    var f := ConnectionResponse(id, 0, remote, if psm !in m.servers then REFUSED_PSM else REFUSED_RESOURCES, 0);
    MinorSignal(f);
    NodsSignal(m, m, z, f);
  }

  lemma DeclinedNods(m: Manager, destination: u16, cid: u16, result: u16)
    requires result != SUCCESS || cid !in m.channels || m.channels[cid].state != WaitConnectResponse
    ensures Nods(m, OnConnectionResponse(m, destination, cid, result).manager, cid)
  {
    hide Nods;
    NodsSame(m, m, cid);
    if cid in m.channels && m.channels[cid].state == WaitConnectResponse {
      var d := m.channels[cid].(connectionResult := Some(result), state := Closed);
      NodsUpdate(m, OnConnectionResponse(m, destination, cid, result).manager, cid, d);
    }
  }

  // A frame that neither adds a channel, nor answers a request, nor proposes.
  predicate Plain(m: Manager, f: ControlFrame) {
    && !f.ConfigureRequest?
    && (f.ConnectionRequest? ==> f.psm !in m.servers || FreeCid(m.channels, FIRST_CID).None?)
    && (f.ConnectionResponse? ==>
          f.result != SUCCESS || f.sourceCid !in m.channels || m.channels[f.sourceCid].state != WaitConnectResponse)
  }

  lemma PlainNods(m: Manager, f: ControlFrame)
    requires Plain(m, f)
    ensures Nods(m, ProcessControl(m, f).manager, Addressee(f))
  {
    hide Nods, OnConnectionRequest, OnConnectionResponse, OnConfigureResponse, OnDisconnectionRequest,
         OnDisconnectionResponse, EncodeFrame, Inform, FreeCid, Minor;
    NodsSame(m, ProcessControl(m, Generic(0, 0, [])).manager, 0);
    match f
    case ConnectionRequest(id, psm, source) => RefusedNods(m, id, psm, source, 0);
    case ConnectionResponse(_, destination, source, result, _) => DeclinedNods(m, destination, source, result);
    case ConfigureResponse(_, source, _, result, _) => ConfiguredNods(m, source, result);
    case DisconnectionRequest(id, destination, source) => ClosedNods(m, id, destination, source);
    case DisconnectionResponse(_, destination, source) => ClosedNods(m, 0, source, destination);
    case EchoRequest(id, data) =>
      MinorSignal(EchoResponse(id, data));
      NodsSignal(m, m, 0, EchoResponse(id, data));
    case InformationRequest(id, infoType) =>
      InformIsResponse(m.information, id, infoType);
      MinorSignal(Inform(m.information, id, infoType));
      NodsSignal(m, m, 0, Inform(m.information, id, infoType));
    case InformationResponse(_, _, _, _) => NodsSame(m, ProcessControl(m, f).manager, 0);
    case _ =>
  }

  lemma InformIsResponse(i: Capabilities, id: byte, infoType: u16)
    ensures Inform(i, id, infoType).InformationResponse?
  {
    hide LeBytes;
  }

  lemma VerdictSameEnd(c: Channel, flags: u16, options: seq<ConfigurationOption>)
    ensures var v := ConfigureVerdict(c, flags, options);
            && SameEnd(c, v.channel) && v.channel.received == c.received
            && (v.result != SUCCESS ==> SameData(c, v.channel))
  {
    hide Negotiate, Ertm.ValidConfig, EnhancedOption, FcsOption, EngineConfigFor, Ertm.Fresh;
  }

  /** A proposal may give the channel an engine, and is answered. */
  lemma ProposalMurmurs(m: Manager, id: byte, cid: u16, flags: u16, encoded: seq<byte>)
    ensures var n := OnConfigureRequest(m, id, cid, flags, encoded).manager;
            Murmurs(m, n, cid) && OnlySignals(m, n)
    ensures cid in m.channels && DecodeOptions(encoded).Success? ==>
              var v := ConfigureVerdict(m.channels[cid], flags, DecodeOptions(encoded).value);
              SameData(v.channel, OnConfigureRequest(m, id, cid, flags, encoded).manager.channels[cid])
  {
    hide Murmurs, ConfigureVerdict, TryEncodeOptions, EncodeFrame, DecodeOptions, Minor;
    MurmursSame(m, m, cid);
    var options := DecodeOptions(encoded);
    if options.Success? && cid in m.channels {
      var v := ConfigureVerdict(m.channels[cid], flags, options.value);
      VerdictSameEnd(m.channels[cid], flags, options.value);
      var n := m.(channels := m.channels[cid := v.channel]);
      MurmursUpdate(m, n, cid, v.channel);
      var response := TryEncodeOptions(v.response);
      if response.Success? {
        var f := ConfigureResponse(id, m.channels[cid].destinationCid, 0, v.result, response.value);
        MinorSignal(f);
        MurmursSignal(m, n, cid, f);
        OpeningMurmurs(m, QueueControl(n, f), cid);
      }
    }
  }

  lemma OpeningMurmurs(m: Manager, n: Manager, z: u16)
    requires Murmurs(m, n, z)
    ensures Murmurs(m, MaybeOpen(n, z), z)
  {
    hide Minor;
  }

  // ---------------------------------------------------------------------------
  // Introductions
  // ---------------------------------------------------------------------------

  // The options that propose a specification.
  lemma ProposalEncodes(s: ChannelSpec)
    ensures (forall o <- Proposal(s) :: Measurable(o)) && |EncodeOptions(Proposal(s))| <= 32
    ensures TryEncodeOptions(Proposal(s)) == Success(EncodeOptions(Proposal(s)))
    ensures DecodeOptions(EncodeOptions(Proposal(s))) == Success(Proposal(s))
  {
    OptionsRoundTrip(Proposal(s));
    hide DecodeOptions;
    var options := Proposal(s);
    assert EncodeOptions([]) == [];
    assert |EncodeOptions(options)| == |EncodeOption(options[0])| + |EncodeOptions(options[1..])|;
    if |options| >= 2 {
      assert |EncodeOptions(options[1..])| == |EncodeOption(options[1])| + |EncodeOptions(options[1..][1..])|;
      assert |options| >= 3 ==> options[1..][1..] == [options[2]] && [options[2]][1..] == [];
      assert |options| == 2 ==> options[1..][1..] == [];
    } else {
      assert options[1..] == [];
    }
  }

  function Signal(f: ControlFrame): Pdu { Pdu(SIGNALING_CID, EncodeFrame(f)) }

  function ProposalFrame(id: byte, destination: u16, s: ChannelSpec): ControlFrame {
    ProposalEncodes(s);
    ConfigureRequest(id, destination, 0, EncodeOptions(Proposal(s)))
  }

  function AgreementFrame(id: byte, source: u16, s: ChannelSpec): ControlFrame {
    ProposalEncodes(s);
    ConfigureResponse(id, source, 0, SUCCESS, EncodeOptions(Proposal(s)))
  }

  lemma ConfigurationsFit(id: byte, cid: u16, s: ChannelSpec)
    ensures |Payload(ProposalFrame(id, cid, s))| <= 0xFFFF && |Payload(AgreementFrame(id, cid, s))| <= 0xFFFF
  {
    ProposalEncodes(s);
    hide EncodeOptions, Proposal;
    WordsLength([cid, 0]);
    WordsLength([cid, 0, SUCCESS]);
  }

  function Signals(frames: seq<ControlFrame>): seq<Pdu> {
    seq(|frames|, i requires 0 <= i < |frames| => Signal(frames[i]))
  }

  // The manager `n` is `m` with this channel and these frames queued.
  predicate Does(m: Manager, n: Manager, cid: u16, c: Channel, frames: seq<ControlFrame>) {
    && n.channels == m.channels[cid := c] && n.servers == m.servers
    && n.outbound == m.outbound + Signals(frames)
  }

  lemma Asks(m: Manager, cid: u16)
    requires cid in m.channels
    ensures var r, c, id := QueueConfigureRequest(m, cid), m.channels[cid], NextIdentifier(m.identifier);
            && r.error.None?
            && r.manager == QueueControl(m.(identifier := id), ProposalFrame(id, c.destinationCid, c.spec))
  {
    hide EncodeFrame, EncodeOptions, Proposal, TryEncodeOptions;
    ProposalEncodes(m.channels[cid].spec);
  }

  lemma RequestTaken(m: Manager, id: byte, psm: u32, x: u16)
    requires psm in m.servers && FreeCid(m.channels, FIRST_CID).Some?
    ensures var y, spec, next := FreeCid(m.channels, FIRST_CID).value, m.servers[psm], NextIdentifier(m.identifier);
            var r := ProcessControl(m, ConnectionRequest(id, psm, x));
            && r.error.None?
            && Does(m, r.manager, y, IncomingChannel(psm, y, x, spec),
                    [ConnectionResponse(id, y, x, SUCCESS, 0), ProposalFrame(next, x, spec)])
  {
    hide EncodeFrame, FreeCid, QueueConfigureRequest, ProposalFrame;
    var y, spec := FreeCid(m.channels, FIRST_CID).value, m.servers[psm];
    var first := ConnectionResponse(id, y, x, SUCCESS, 0);
    var n := QueueControl(Put(m, IncomingChannel(psm, y, x, spec)), first);
    Asks(n, y);
    SignalsTwo(m.outbound, first, ProposalFrame(NextIdentifier(m.identifier), x, spec));
  }

  lemma SignalsTwo(queue: seq<Pdu>, f: ControlFrame, g: ControlFrame)
    ensures queue + [Signal(f)] + [Signal(g)] == queue + Signals([f, g])
  {
    hide Signal;
  }

  lemma ResponseTaken(m: Manager, id: byte, y: u16, x: u16)
    requires x in m.channels && m.channels[x].state == WaitConnectResponse
    ensures var c, next := m.channels[x], NextIdentifier(m.identifier);
            var r := ProcessControl(m, ConnectionResponse(id, y, x, SUCCESS, 0));
            && r.error.None?
            && Does(m, r.manager, x, c.(connectionResult := Some(SUCCESS), destinationCid := y, state := Configuring),
                    [ProposalFrame(next, y, c.spec)])
  {
    hide EncodeFrame, QueueConfigureRequest, ProposalFrame;
    var d := m.channels[x].(connectionResult := Some(SUCCESS), destinationCid := y, state := Configuring);
    Asks(m.(channels := m.channels[x := d]), x);
  }

  // A new end of `l`: it names nobody, or a requester that nobody names.
  predicate Newcomer(l: Manager, r: Manager, z: u16, c: Channel) {
    && z !in l.channels && z >= FIRST_CID
    && if c.incoming then
         var w := c.destinationCid;
         w in r.channels && !r.channels[w].incoming && Unnamed(l, w)
       else c.destinationCid == 0
  }

  lemma EndsAdded(l: Manager, r: Manager, n: Manager, z: u16, c: Channel)
    requires Ends(l, r) && Ends(r, l) && Newcomer(l, r, z, c) && n.channels == l.channels[z := c]
    ensures Ends(n, r) && Ends(r, n)
  {
    forall w <- r.channels ensures EndOk(r, n, w) { assert EndOk(r, l, w); }
    forall w <- n.channels ensures w >= FIRST_CID && EndOk(n, r, w) { if w != z { assert EndOk(l, r, w); } }
  }

  lemma PduOkAdded(p: Pdu, l: Manager, r: Manager, n: Manager, z: u16, c: Channel)
    requires z !in l.channels && n.channels == l.channels[z := c]
    ensures PduOk(p, l, r) ==> PduOk(p, n, r)
    ensures PduOk(p, r, l) && Requester(p) != Some(c.destinationCid) ==> PduOk(p, r, n)
  {
    hide DecodeFrame, DecodeOptions, Proposal;
    if PduOk(p, l, r) {
      if p.cid != SIGNALING_CID {
        if p.cid != 0 {
          var w :| w in l.channels && l.channels[w].destinationCid == p.cid;
          assert w in n.channels && n.channels[w].destinationCid == p.cid;
        }
      } else if DecodeFrame(p.payload).Success? && DecodeFrame(p.payload).value.ConfigureRequest? {
        var f := DecodeFrame(p.payload).value;
        var w :| w in l.channels && l.channels[w].destinationCid == f.destinationCid
                 && DecodeOptions(f.options) == Success(Proposal(l.channels[w].spec));
        assert w in n.channels && n.channels[w] == l.channels[w];
      }
    }
  }

  // What was already queued on either side, after an end was added.
  lemma QueuesAdded(l: Manager, r: Manager, n: Manager, z: u16, c: Channel, more: seq<Pdu>)
    requires QueueOk(l, r) && QueueOk(r, l) && z !in l.channels
    requires n.channels == l.channels[z := c] && n.outbound == l.outbound + more
    requires forall i :: 0 <= i < |r.outbound| ==> Requester(r.outbound[i]) != Some(c.destinationCid)
    requires forall i :: 0 <= i < |more| ==> PduOk(more[i], n, r)
    requires forall i, j ::
             0 <= i < |n.outbound| && |l.outbound| <= j < |n.outbound| && i < j && Requester(n.outbound[i]).Some? ==>
               Requester(n.outbound[i]) != Requester(n.outbound[j])
    ensures QueueOk(n, r) && QueueOk(r, n)
  {
    hide PduOk, Requester;
    forall i | 0 <= i < |r.outbound| ensures PduOk(r.outbound[i], r, n) { PduOkAdded(r.outbound[i], l, r, n, z, c); }
    forall i | 0 <= i < |n.outbound| ensures PduOk(n.outbound[i], n, r) {
      if i < |l.outbound| {
        PduOkAdded(l.outbound[i], l, r, n, z, c);
      } else {
        assert n.outbound[i] == more[i - |l.outbound|];
      }
    }
    forall i, j | 0 <= i < j < |n.outbound| && Requester(n.outbound[i]).Some?
      ensures Requester(n.outbound[i]) != Requester(n.outbound[j])
    {
      if j < |l.outbound| { assert n.outbound[i] == l.outbound[i] && n.outbound[j] == l.outbound[j]; }
    }
  }

  lemma RequestReads(id: byte, psm: u32, z: u16)
    requires ValidPsm(psm) && psm <= 0xFFFF
    ensures DecodeFrame(EncodeFrame(ConnectionRequest(id, psm, z))) == Success(ConnectionRequest(id, psm, z))
  {
    hide EncodeFrame, DecodeFrame, ValidPsm, Payload;
    var f := ConnectionRequest(id, psm, z);
    ConnectionRequestDecodes(f);
    SignalingRoundTrip(f);
  }

  lemma QueuedRequester(l: Manager, r: Manager, i: nat)
    requires QueueOk(l, r) && i < |l.outbound| && Requester(l.outbound[i]).Some?
    ensures Requests(l, r, Requester(l.outbound[i]).value)
  {
    hide DecodeFrame;
    assert PduOk(l.outbound[i], l, r);
  }

  /** Asking for a connection. */
  lemma ConnectTalk(l: Manager, r: Manager, psm: u32, spec: ChannelSpec)
    requires Talk(l, r) && psm <= 0xFFFF
    ensures Talk(Connect(l, psm, spec).0, r)
  {
    hide EncodeFrame, ValidPsm, FreeCid, DecodeFrame, PduOk, Requester, EndOk, ValidSpec;
    var cid := FreeCid(l.channels, FIRST_CID);
    var n := Connect(l, psm, spec).0;
    if ValidPsm(psm) && ValidSpec(spec) && cid.Some? {
      var z, id, c := cid.value, NextIdentifier(l.identifier), OutgoingChannel(psm, cid.value, spec);
      var p := Pdu(SIGNALING_CID, EncodeFrame(ConnectionRequest(id, psm, z)));
      RequestReads(id, psm, z);
      assert Newcomer(l, r, z, c);
      EndsAdded(l, r, n, z, c);
      RequestOk(n, l, r, z, p, id, psm);
      forall i | 0 <= i < |r.outbound| ensures Requester(r.outbound[i]) != Some(0) {
        if Requester(r.outbound[i]).Some? {
          QueuedRequester(r, l, i);
          assert Requester(r.outbound[i]).value >= FIRST_CID;
        }
      }
      forall i | 0 <= i < |l.outbound| && Requester(l.outbound[i]).Some?
        ensures Requester(l.outbound[i]) != Requester(p)
      {
        QueuedRequester(l, r, i);
      }
      QueuesAdded(l, r, n, z, c, [p]);
    } else {
      assert n == l;
    }
  }

  lemma RequestOk(n: Manager, l: Manager, r: Manager, z: u16, p: Pdu, id: byte, psm: u32)
    requires Ends(r, l) && z !in l.channels && z >= FIRST_CID && z in n.channels && !n.channels[z].incoming
             && n.channels[z].destinationCid == 0
    requires p.cid == SIGNALING_CID && DecodeFrame(p.payload) == Success(ConnectionRequest(id, psm, z))
    ensures PduOk(p, n, r) && Requester(p) == Some(z)
  {
    hide DecodeFrame;
    forall w <- r.channels ensures r.channels[w].destinationCid != z { assert EndOk(r, l, w); }
  }

  lemma FramesRead(f: ControlFrame)
    requires |Payload(f)| <= 0xFFFF && !f.Generic? && !f.ConnectionRequest?
    ensures DecodeFrame(Signal(f).payload) == Success(f)
  {
    hide EncodeFrame, DecodeFrame, Payload;
    SignalingRoundTrip(f);
  }

  lemma AcceptanceOk(n: Manager, r: Manager, id: byte, z: u16, w: u16)
    requires Accepts(n, z, w)
    ensures var p := Signal(ConnectionResponse(id, z, w, SUCCESS, 0));
            PduOk(p, n, r) && Requester(p).None?
  {
    var f := ConnectionResponse(id, z, w, SUCCESS, 0);
    assert |Payload(f)| <= 0xFFFF by { WordsLength(Fields(f)); }
    FramesRead(f);
    hide EncodeFrame, DecodeFrame;
  }

  lemma ProposalOk(n: Manager, r: Manager, id: byte, z: u16)
    requires z in n.channels && n.channels[z].destinationCid != 0
    ensures var p := Signal(ProposalFrame(id, n.channels[z].destinationCid, n.channels[z].spec));
            PduOk(p, n, r) && Requester(p).None?
  {
    var c := n.channels[z];
    ConfigurationsFit(id, c.destinationCid, c.spec);
    FramesRead(ProposalFrame(id, c.destinationCid, c.spec));
    ProposalEncodes(c.spec);
    hide EncodeFrame, DecodeFrame, DecodeOptions, EncodeOptions, Proposal;
  }

  // The manager `n` is `l` after it accepted the request of `w`, which `r` has already let go of.
  lemma AcceptedTalk(l: Manager, r: Manager, n: Manager, id: byte, next: byte, psm: u32, z: u16, w: u16,
                     spec: ChannelSpec)
    requires Talk(l, r) && z !in l.channels && z >= FIRST_CID
    requires Requests(r, l, w) && forall i :: 0 <= i < |r.outbound| ==> Requester(r.outbound[i]) != Some(w)
    requires Does(l, n, z, IncomingChannel(psm, z, w, spec),
                  [ConnectionResponse(id, z, w, SUCCESS, 0), ProposalFrame(next, w, spec)])
    ensures Talk(n, r)
  {
    hide EndOk, PduOk, Requester, Signal, ProposalFrame;
    var c := IncomingChannel(psm, z, w, spec);
    assert w >= FIRST_CID;
    EndsAdded(l, r, n, z, c);
    AcceptanceOk(n, r, id, z, w);
    ProposalOk(n, r, next, z);
    var more := Signals([ConnectionResponse(id, z, w, SUCCESS, 0), ProposalFrame(next, w, spec)]);
    assert more[0] == Signal(ConnectionResponse(id, z, w, SUCCESS, 0))
           && more[1] == Signal(ProposalFrame(next, w, spec));
    QueuesAdded(l, r, n, z, c, more);
  }

  /** Accepting a connection: `r` has already let go of the request. */
  lemma AcceptTalk(l: Manager, r: Manager, id: byte, psm: u32, w: u16)
    requires Talk(l, r) && psm in l.servers && FreeCid(l.channels, FIRST_CID).Some?
    requires Requests(r, l, w) && forall i :: 0 <= i < |r.outbound| ==> Requester(r.outbound[i]) != Some(w)
    ensures Talk(OnConnectionRequest(l, id, psm, w).manager, r)
  {
    hide Talk, Requests, OnConnectionRequest, ProcessControl, FreeCid, Requester, Does;
    RequestTaken(l, id, psm, w);
    ControlIs(l, ConnectionRequest(id, psm, w));
    var z, spec, next := FreeCid(l.channels, FIRST_CID).value, l.servers[psm], NextIdentifier(l.identifier);
    AcceptedTalk(l, r, OnConnectionRequest(l, id, psm, w).manager, id, next, psm, z, w, spec);
  }

  // The end `w` of `l` learns whom it talks to.
  lemma EndsAnswered(l: Manager, r: Manager, n: Manager, w: u16, u: u16)
    requires Ends(l, r) && Ends(r, l) && Accepts(r, u, w) && w in n.channels
    requires n.channels == l.channels[w := n.channels[w]] && n.channels[w].spec == l.channels[w].spec
    requires !n.channels[w].incoming && n.channels[w].destinationCid == u
    ensures w in l.channels && !l.channels[w].incoming && l.channels[w].destinationCid in {0, u} && u >= FIRST_CID
    ensures Ends(n, r) && Ends(r, n)
  {
    assert EndOk(r, l, u) && EndOk(l, r, w);
    forall z <- r.channels ensures EndOk(r, n, z) { assert EndOk(r, l, z); }
    forall z <- n.channels ensures z >= FIRST_CID && EndOk(n, r, z) { if z != w { assert EndOk(l, r, z); } }
  }

  lemma PduOkAnswered(p: Pdu, l: Manager, r: Manager, n: Manager, w: u16, u: u16)
    requires Ends(l, r) && Ends(r, l) && Accepts(r, u, w) && w in l.channels && w in n.channels
    requires n.channels == l.channels[w := n.channels[w]] && n.channels[w].spec == l.channels[w].spec
    requires !n.channels[w].incoming && n.channels[w].destinationCid == u
    requires !l.channels[w].incoming && l.channels[w].destinationCid in {0, u}
    ensures PduOk(p, l, r) ==> PduOk(p, n, r)
    ensures PduOk(p, r, l) ==> PduOk(p, r, n)
  {
    hide DecodeFrame, DecodeOptions, Proposal, EndOk;
    if PduOk(p, l, r) {
      if p.cid != SIGNALING_CID {
        if p.cid != 0 {
          var z :| z in l.channels && l.channels[z].destinationCid == p.cid;
          assert z in n.channels && n.channels[z].destinationCid == p.cid;
        }
      } else if DecodeFrame(p.payload).Success? && DecodeFrame(p.payload).value.ConfigureRequest? {
        var f := DecodeFrame(p.payload).value;
        var z :| z in l.channels && l.channels[z].destinationCid == f.destinationCid
                 && DecodeOptions(f.options) == Success(Proposal(l.channels[z].spec));
        assert z in n.channels && n.channels[z].destinationCid == f.destinationCid
               && n.channels[z].spec == l.channels[z].spec;
      } else if DecodeFrame(p.payload).Success? && DecodeFrame(p.payload).value.ConnectionRequest? {
        assert DecodeFrame(p.payload).value.sourceCid != w;
      }
    }
  }

  // The queues after the end `w` of `l` learnt whom it talks to, and said `p`.
  lemma QueuesAnswered(l: Manager, r: Manager, n: Manager, w: u16, u: u16, p: Pdu)
    requires Talk(l, r) && Accepts(r, u, w) && w in l.channels && w in n.channels
    requires n.channels == l.channels[w := n.channels[w]] && n.channels[w].spec == l.channels[w].spec
    requires !n.channels[w].incoming && n.channels[w].destinationCid == u
    requires !l.channels[w].incoming && l.channels[w].destinationCid in {0, u}
    requires n.outbound == l.outbound + [p] && PduOk(p, n, r) && Requester(p).None?
    ensures QueueOk(n, r) && QueueOk(r, n)
  {
    hide EndOk, PduOk, Requester, SameRequester;
    forall i | 0 <= i < |r.outbound| ensures PduOk(r.outbound[i], r, n) { PduOkAnswered(r.outbound[i], l, r, n, w, u); }
    forall i | 0 <= i < |l.outbound| ensures PduOk(l.outbound[i], n, r) { PduOkAnswered(l.outbound[i], l, r, n, w, u); }
  }

  lemma AnsweredTalk(l: Manager, r: Manager, n: Manager, next: byte, u: u16, w: u16)
    requires Talk(l, r) && Accepts(r, u, w) && w in l.channels
    requires Does(l, n, w, l.channels[w].(connectionResult := Some(SUCCESS), destinationCid := u, state := Configuring),
                  [ProposalFrame(next, u, l.channels[w].spec)])
    ensures Talk(n, r)
  {
    assert EndOk(r, l, u);
    EndsAnswered(l, r, n, w, u);
    hide Ends, QueueOk, EndOk, PduOk, Requester, Signal, ProposalFrame, Accepts;
    ProposalOk(n, r, next, w);
    var p := Signal(ProposalFrame(next, u, l.channels[w].spec));
    assert n.outbound == l.outbound + [p];
    QueuesAnswered(l, r, n, w, u, p);
  }

  /** The answer to a request: the end names its acceptor, and proposes. */
  lemma AnswerTalk(l: Manager, r: Manager, u: u16, w: u16)
    requires Talk(l, r) && Accepts(r, u, w) && w in l.channels && l.channels[w].state == WaitConnectResponse
    ensures Talk(OnConnectionResponse(l, u, w, SUCCESS).manager, r)
  {
    hide Talk, OnConnectionResponse, ProcessControl, Does;
    ResponseTaken(l, 0, u, w);
    ControlIs(l, ConnectionResponse(0, u, w, SUCCESS, 0));
    AnsweredTalk(l, r, OnConnectionResponse(l, u, w, SUCCESS).manager, NextIdentifier(l.identifier), u, w);
  }

  /** Every PDU that arrives, whatever it is, keeps the conversation. */
  lemma DeliverTalk(l: Manager, r: Manager)
    requires Talk(l, r) && r.outbound != []
    ensures Talk(ProcessPdu(l, r.outbound[0]).manager, PollOutbound(r))
  {
    var p, rest := r.outbound[0], PollOutbound(r);
    assert PduOk(p, r, l);
    TalkBack(l, r);
    assert rest == r.(outbound := E.Without(r.outbound, 0)) by { assert [] + r.outbound[1..] == r.outbound[1..]; }
    LoseTalk(r, l, rest, 0);
    TalkBack(rest, l);
    RestRequesters(l, r);
    TalkProper(l, rest);
    hide Talk, ProcessControl, OnConnectionRequest, OnConnectionResponse, DecodeFrame, Requester, Murmurs, Quiet,
         Proper, FreeCid;
    if p.cid != SIGNALING_CID {
      hide PduOk, ProcessPdu;
      DataMurmurs(l, p);
      MurmursQuiet(l, ProcessPdu(l, p).manager, p.cid);
      QuietTalk(l, rest, ProcessPdu(l, p).manager);
    } else if DecodeFrame(p.payload).Success? {
      SignalTalk(l, rest, DecodeFrame(p.payload).value);
    }
  }

  lemma RestRequesters(l: Manager, r: Manager)
    requires QueueOk(r, l) && r.outbound != []
    ensures Requester(r.outbound[0]).Some? ==>
              forall i :: 0 <= i < |PollOutbound(r).outbound| ==>
                  Requester(PollOutbound(r).outbound[i]) != Requester(r.outbound[0])
  {
    hide Requester, PduOk;
  }

  lemma SignalTalk(l: Manager, r: Manager, f: ControlFrame)
    requires Talk(l, r) && FrameOk(f, r, l)
    requires f.ConnectionRequest? ==> forall i :: 0 <= i < |r.outbound| ==>
             Requester(r.outbound[i]) != Some(f.sourceCid)
    ensures Talk(ProcessControl(l, f).manager, r)
  {
    hide Talk, Requester, Murmurs, Quiet, FreeCid, OnConnectionRequest, OnConnectionResponse, OnConfigureRequest,
         ProcessControl, Proposes, Requests;
    var n := ProcessControl(l, f).manager;
    if Plain(l, f) {
      PlainNods(l, f);
      MurmursQuiet(l, n, Addressee(f));
      QuietTalk(l, r, n);
    } else if f.ConfigureRequest? {
      ControlIs(l, f);
      ProposalMurmurs(l, f.identifier, f.destinationCid, f.flags, f.options);
      MurmursQuiet(l, n, f.destinationCid);
      QuietTalk(l, r, n);
    } else if f.ConnectionRequest? {
      ControlIs(l, f);
      AcceptTalk(l, r, f.identifier, f.psm, f.sourceCid);
    } else {
      ControlIs(l, f);
      AnswerTalk(l, r, f.destinationCid, f.sourceCid);
    }
  }

  lemma ControlIs(m: Manager, f: ControlFrame)
    ensures f.ConfigureRequest? ==>
            ProcessControl(m, f) == OnConfigureRequest(m, f.identifier, f.destinationCid, f.flags, f.options)
    ensures f.ConnectionRequest? ==> ProcessControl(m, f) == OnConnectionRequest(m, f.identifier, f.psm, f.sourceCid)
    ensures f.ConnectionResponse? ==>
            ProcessControl(m, f) == OnConnectionResponse(m, f.destinationCid, f.sourceCid, f.result)
  {
    hide OnConnectionRequest, OnConnectionResponse, OnConfigureRequest;
  }
}
