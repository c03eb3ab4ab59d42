/**
  * One manager under any calls and any PDUs from the peer: channels only ever move
  * forward through their states, an open channel is fully configured and has an
  * engine exactly when its mode is enhanced retransmission, CIDs are never reused,
  * and an incoming channel is announced at most once.
  */
module ChannelLifecycle {
  import opened Bytes
  import opened Signaling
  import opened Channels
  import Ertm
  import Fcs

  datatype Operation =
    | Register(psm: Option<u32>, spec: ChannelSpec)
    | Unregister(server: u32)
    | ConnectTo(target: u32, spec: ChannelSpec)
    | Process(pdu: Pdu)
    | SendSdu(cid: u16, sdu: seq<byte>)
    | Close(cid: u16)
    | SetBusy(cid: u16, busy: bool)
    | Elapse(ticks: u32)
    | Inquire(infoType: u16)
    | TakeOutbound
    | TakeAccepted
    | TakeReceived(cid: u16)

  function Perform(m: Manager, op: Operation): Manager
    requires EnginesValid(m)
  {
    match op
    case Register(psm, spec) => RegisterServer(m, psm, spec).0
    case Unregister(psm) => UnregisterServer(m, psm)
    case ConnectTo(psm, spec) => Connect(m, psm, spec).0
    case Process(pdu) => ProcessPdu(m, pdu).manager
    case SendSdu(cid, sdu) => Send(m, cid, sdu).manager
    case Close(cid) => Disconnect(m, cid).manager
    case SetBusy(cid, busy) => SetReceiverBusy(m, cid, busy).manager
    case Elapse(ticks) => Tick(m, 0, ticks).manager
    case Inquire(infoType) => RequestInformation(m, infoType)
    case TakeOutbound => PollOutbound(m)
    case TakeAccepted => PollAccepted(m)
    case TakeReceived(cid) => PopReceived(m, cid)
  }

  function Rank(s: ChannelState): nat {
    match s
    case WaitConnectResponse => 0
    case Configuring => 1
    case Open => 2
    case WaitDisconnect => 3
    case Closed => 4
  }

  predicate ChannelOk(cid: u16, c: Channel) {
    && c.sourceCid == cid && cid >= FIRST_CID
    && c.peerMtu >= MIN_MTU
    && ValidSpec(c.spec)
    && (c.state == Open ==> c.peerConfigured && c.responseReceived)
    && (c.ertm.Some? ==> c.spec.Enhanced? && Ertm.ValidConfig(c.ertm.value.config))
    && (c.spec.Enhanced? && c.peerConfigured ==> c.ertm.Some?)
    && (c.announced ==> c.incoming)
  }

  predicate Inv(m: Manager) {
    && (forall cid <- m.channels :: ChannelOk(cid, m.channels[cid]))
    && (forall psm <- m.servers :: ValidSpec(m.servers[psm]))
  }

  // What an operation may do to a channel.
  predicate Forward(c: Channel, d: Channel) {
    && Rank(c.state) <= Rank(d.state)
    && d.psm == c.psm && d.sourceCid == c.sourceCid && d.incoming == c.incoming && d.spec == c.spec
    && (c.peerConfigured ==> d.peerConfigured) && (c.responseReceived ==> d.responseReceived)
    && (c.announced ==> d.announced)
  }

  predicate Announced(m: Manager, cid: u16) { cid in m.channels && m.channels[cid].announced }

  predicate OpenAndAnnounced(m: Manager, cid: u16) { Announced(m, cid) && m.channels[cid].state == Open }

  // What an operation may do to a manager.
  ghost predicate Evolves(m: Manager, n: Manager) {
    && (forall cid <- m.channels :: cid in n.channels && Forward(m.channels[cid], n.channels[cid]))
    && (n.accepted != m.accepted ==>
          || (m.accepted != [] && n.accepted == m.accepted[1..])
          || exists cid: u16 :: n.accepted == m.accepted + [cid] && !Announced(m, cid) && OpenAndAnnounced(n, cid))
  }

  ghost predicate Good(m: Manager, n: Manager) { Inv(n) && Evolves(m, n) }

  // The same channels, servers and announcements: nothing the invariant looks at changed.
  predicate SameChannels(m: Manager, n: Manager) {
    n.channels == m.channels && n.servers == m.servers && n.accepted == m.accepted
  }

  lemma SameIsGood(m: Manager, n: Manager)
    requires Inv(m) && SameChannels(m, n)
    ensures Good(m, n)
  {
  }

  /** Changing one channel, forward and without announcing it. */
  lemma UpdateIsGood(m: Manager, cid: u16, d: Channel)
    requires Inv(m) && cid in m.channels && ChannelOk(cid, d) && Forward(m.channels[cid], d)
    ensures Good(m, m.(channels := m.channels[cid := d]))
  {
  }

  /** A new channel under an unused CID. */
  lemma AddIsGood(m: Manager, c: Channel)
    requires Inv(m) && c.sourceCid !in m.channels && ChannelOk(c.sourceCid, c)
    ensures Good(m, Put(m, c))
  {
  }

  lemma SameThenGood(m: Manager, n: Manager, o: Manager)
    requires Good(m, n) && SameChannels(n, o)
    ensures Good(m, o)
  {
  }

  /** Opening, and the one announcement that may come with it. */
  lemma MaybeOpenIsGood(m: Manager, n: Manager, cid: u16)
    requires Inv(n) && cid in m.channels && cid in n.channels
    requires n == m.(channels := m.channels[cid := n.channels[cid]], outbound := n.outbound)
    requires Forward(m.channels[cid], n.channels[cid]) && n.channels[cid].announced == m.channels[cid].announced
    ensures Good(m, MaybeOpen(n, cid))
  {
    var o := MaybeOpen(n, cid);
    if o.accepted != m.accepted {
      assert o.accepted == m.accepted + [cid] && !Announced(m, cid) && OpenAndAnnounced(o, cid);
    }
  }

  // ---------------------------------------------------------------------------
  // Configuration
  // ---------------------------------------------------------------------------

  /** Whatever options arrive, the negotiated MTU stays legal and accepted ERTM parameters are usable. */
  lemma {:induction false} NegotiateKeeps(enhanced: bool, n: Negotiation, options: seq<ConfigurationOption>)
    requires n.peerMtu >= MIN_MTU && n.result == SUCCESS
    requires n.ertm.Some? ==> AcceptableErtm(enhanced, n.ertm.value)
    ensures var r := Negotiate(enhanced, n, options);
            r.peerMtu >= MIN_MTU && (r.ertm.Some? ==> AcceptableErtm(enhanced, r.ertm.value))
    decreases |options|
  {
    if options != [] {
      var next := Consider(enhanced, n, options[0]);
      if next.result == SUCCESS { NegotiateKeeps(enhanced, next, options[1..]); }
    }
  }

  lemma ConcludeKeeps(cid: u16, c: Channel, n: Negotiation)
    requires ChannelOk(cid, c) && n.result == SUCCESS
    requires n.ertm.Some? ==> AcceptableErtm(c.spec.Enhanced?, n.ertm.value)
    ensures var v := Conclude(c, n);
            && !v.engineFailed
            && v.channel == c.(peerMps := v.channel.peerMps, fcsEnabled := v.channel.fcsEnabled, ertm := v.channel.ertm)
            && (v.channel.ertm.Some? ==> c.spec.Enhanced? && Ertm.ValidConfig(v.channel.ertm.value.config))
            && (c.ertm.Some? ==> v.channel.ertm.Some?)
            && (v.result == SUCCESS && c.spec.Enhanced? ==> v.channel.ertm.Some?)
  {
  }

  // What settling a request may leave of its channel `c`.
  predicate Settled(cid: u16, c: Channel, d: Channel) {
    && ChannelOk(cid, d) && Forward(c, d) && d.announced == c.announced && d.destinationCid == c.destinationCid
  }

  lemma SettleKeeps(cid: u16, c: Channel, v: Verdict)
    requires ChannelOk(cid, c)
    requires v.channel == c.(peerMps := v.channel.peerMps, fcsEnabled := v.channel.fcsEnabled, ertm := v.channel.ertm)
    requires v.channel.ertm.Some? ==> c.spec.Enhanced? && Ertm.ValidConfig(v.channel.ertm.value.config)
    requires c.ertm.Some? ==> v.channel.ertm.Some?
    requires v.result == SUCCESS && c.spec.Enhanced? ==> v.channel.ertm.Some?
    ensures Settled(cid, c, Settle(v).channel)
  {
    hide Ertm.ValidConfig, ValidSpec;
  }

  /** A configuration request leaves its channel well formed, never behind, and never fails to build an engine. */
  lemma VerdictKeeps(cid: u16, c: Channel, flags: u16, options: seq<ConfigurationOption>)
    requires ChannelOk(cid, c)
    ensures Settled(cid, c, ConfigureVerdict(c, flags, options).channel)
    ensures !ConfigureVerdict(c, flags, options).engineFailed
  {
    NegotiateKeeps(c.spec.Enhanced?, Negotiation(SUCCESS, [], c.peerMtu, None, None), options);
    hide Negotiate, Conclude, Settle, AcceptableErtm, Ertm.ValidConfig, ValidSpec;
    var n := Negotiate(c.spec.Enhanced?, Negotiation(SUCCESS, [], c.peerMtu, None, None), options);
    var d := c.(peerMtu := n.peerMtu);
    if n.result == SUCCESS {
      ConcludeKeeps(cid, d, n);
      SettleKeeps(cid, d, Conclude(d, n));
      SettledAfterMtu(cid, c, n.peerMtu, Settle(Conclude(d, n)).channel);
    }
  }

  lemma SettledAfterMtu(cid: u16, c: Channel, mtu: u16, d: Channel)
    requires Settled(cid, c.(peerMtu := mtu), d)
    ensures Settled(cid, c, d)
  {
    hide Ertm.ValidConfig, ValidSpec;
  }

  lemma OnConfigureRequestIsGood(m: Manager, id: byte, cid: u16, flags: u16, encoded: seq<byte>)
    requires Inv(m)
    ensures Good(m, OnConfigureRequest(m, id, cid, flags, encoded).manager)
  {
    hide ConfigureVerdict, TryEncodeOptions, EncodeFrame;
    var options := DecodeOptions(encoded);
    SameIsGood(m, m);
    if options.Success? && cid in m.channels {
      VerdictKeeps(cid, m.channels[cid], flags, options.value);
      var v := ConfigureVerdict(m.channels[cid], flags, options.value);
      var n := m.(channels := m.channels[cid := v.channel]);
      UpdateIsGood(m, cid, v.channel);
      var response := TryEncodeOptions(v.response);
      if response.Success? {
        var q := QueueControl(n, ConfigureResponse(id, m.channels[cid].destinationCid, 0, v.result, response.value));
        MaybeOpenIsGood(m, q, cid);
      }
    }
  }

  lemma OnConfigureResponseIsGood(m: Manager, cid: u16, result: u16)
    requires Inv(m)
    ensures Good(m, OnConfigureResponse(m, cid, result).manager)
  {
    SameIsGood(m, m);
    if cid in m.channels {
      var c := m.channels[cid];
      var d := if result == SUCCESS then c.(responseReceived := true)
               else c.(connectionResult := Some(result), state := Closed);
      UpdateIsGood(m, cid, d);
      MaybeOpenIsGood(m, m.(channels := m.channels[cid := d]), cid);
    }
  }

  lemma QueueConfigureRequestIsGood(m: Manager, n: Manager, cid: u16)
    requires Good(m, n)
    ensures Good(m, QueueConfigureRequest(n, cid).manager)
  {
    hide TryEncodeOptions, EncodeFrame;
    SameThenGood(m, n, QueueConfigureRequest(n, cid).manager);
  }

  lemma OnConnectionRequestIsGood(m: Manager, id: byte, psm: u32, remote: u16)
    requires Inv(m)
    ensures Good(m, OnConnectionRequest(m, id, psm, remote).manager)
  {
    hide EncodeFrame, QueueConfigureRequest;
    var cid := FreeCid(m.channels, FIRST_CID);
    if psm in m.servers && cid.Some? {
      var c := IncomingChannel(psm, cid.value, remote, m.servers[psm]);
      AddIsGood(m, c);
      var q := QueueControl(Put(m, c), ConnectionResponse(id, cid.value, remote, SUCCESS, 0));
      SameThenGood(m, Put(m, c), q);
      QueueConfigureRequestIsGood(m, q, cid.value);
    } else {
      SameIsGood(m, OnConnectionRequest(m, id, psm, remote).manager);
    }
  }

  lemma OnConnectionResponseIsGood(m: Manager, destination: u16, cid: u16, result: u16)
    requires Inv(m)
    ensures Good(m, OnConnectionResponse(m, destination, cid, result).manager)
  {
    hide QueueConfigureRequest;
    SameIsGood(m, m);
    if cid in m.channels && m.channels[cid].state == WaitConnectResponse {
      var c := m.channels[cid];
      if result != SUCCESS {
        UpdateIsGood(m, cid, c.(connectionResult := Some(result), state := Closed));
      } else {
        var d := c.(connectionResult := Some(result), destinationCid := destination, state := Configuring);
        UpdateIsGood(m, cid, d);
        QueueConfigureRequestIsGood(m, m.(channels := m.channels[cid := d]), cid);
      }
    }
  }

  lemma ClosingIsGood(m: Manager, id: byte, cid: u16, other: u16)
    requires Inv(m)
    ensures Good(m, OnDisconnectionRequest(m, id, cid, other).manager)
    ensures Good(m, OnDisconnectionResponse(m, other, cid).manager)
    ensures Good(m, Disconnect(m, cid).manager)
  {
    hide EncodeFrame;
    SameIsGood(m, m);
    if cid in m.channels {
      var c := m.channels[cid];
      var closed := m.(channels := m.channels[cid := c.(state := Closed)]);
      UpdateIsGood(m, cid, c.(state := Closed));
      SameThenGood(m, closed, QueueControl(closed, DisconnectionResponse(id, cid, other)));
      if c.state == Open {
        UpdateIsGood(m, cid, c.(state := WaitDisconnect));
        SameThenGood(m, m.(channels := m.channels[cid := c.(state := WaitDisconnect)]), Disconnect(m, cid).manager);
      }
    }
  }

  lemma ProcessControlIsGood(m: Manager, f: ControlFrame)
    requires Inv(m)
    ensures Good(m, ProcessControl(m, f).manager)
  {
    hide OnConnectionRequest, OnConnectionResponse, OnConfigureRequest, OnConfigureResponse, OnDisconnectionRequest,
         OnDisconnectionResponse, EncodeFrame, Good;
    match f
    case ConnectionRequest(id, psm, source) => OnConnectionRequestIsGood(m, id, psm, source);
    case ConnectionResponse(_, destination, source, result, _) =>
      OnConnectionResponseIsGood(m, destination, source, result);
    case ConfigureRequest(id, destination, flags, options) =>
      OnConfigureRequestIsGood(m, id, destination, flags, options);
    case ConfigureResponse(_, source, _, result, _) => OnConfigureResponseIsGood(m, source, result);
    case DisconnectionRequest(id, destination, source) => ClosingIsGood(m, id, destination, source);
    case DisconnectionResponse(_, destination, source) => ClosingIsGood(m, 0, source, destination);
    case _ => SameIsGood(m, ProcessControl(m, f).manager);
  }

  // ---------------------------------------------------------------------------
  // Data
  // ---------------------------------------------------------------------------

  lemma {:induction false} QueueFramesSame(m: Manager, destination: u16, fcs: bool, frames: seq<seq<byte>>)
    ensures SameChannels(m, QueueFrames(m, destination, fcs, frames).manager)
    decreases |frames|
  {
    hide Fcs.AppendFcs;
    if frames != [] {
      var payload := if fcs then Fcs.AppendFcs(destination, frames[0]) else Success(frames[0]);
      if payload.Success? {
        QueueFramesSame(m.(outbound := m.outbound + [Pdu(destination, payload.value)]), destination, fcs, frames[1..]);
      }
    }
  }

  /** An engine operation on a channel, and the flush that follows. */
  lemma AfterEngineIsGood(m: Manager, cid: u16, step: Ertm.Step)
    requires Inv(m) && cid in m.channels && m.channels[cid].ertm.Some?
    requires step.engine.config == m.channels[cid].ertm.value.config
    ensures Good(m, AfterEngine(m, cid, step).manager)
  {
    hide QueueFrames, Good;
    var c, e := m.channels[cid], step.engine;
    UpdateIsGood(m, cid, c.(ertm := Some(e)));
    var d := c.(ertm := Some(Drained(e)), received := c.received + e.received);
    UpdateIsGood(m, cid, d);
    var n := m.(channels := m.channels[cid := d]);
    QueueFramesSame(n, c.destinationCid, c.fcsEnabled, e.outbound);
    SameThenGood(m, n, QueueFrames(n, c.destinationCid, c.fcsEnabled, e.outbound).manager);
    assert m.channels[cid := c.(ertm := Some(e))][cid := d] == m.channels[cid := d];
  }

  lemma ProcessPduIsGood(m: Manager, pdu: Pdu)
    requires Inv(m)
    ensures Good(m, ProcessPdu(m, pdu).manager)
  {
    hide Good, ProcessControl, AfterEngine, Ertm.ReceiveFrame, Fcs.VerifyAndStripFcs, DecodeFrame;
    SameIsGood(m, m);
    if pdu.cid == SIGNALING_CID {
      if DecodeFrame(pdu.payload).Success? { ProcessControlIsGood(m, DecodeFrame(pdu.payload).value); }
    } else if pdu.cid in m.channels && m.channels[pdu.cid].state == Open {
      var c := m.channels[pdu.cid];
      if c.ertm.Some? {
        var payload := if c.fcsEnabled then Fcs.VerifyAndStripFcs(pdu.cid, pdu.payload) else Success(pdu.payload);
        if payload.Success? {
          Ertm.ReceiveKeepsConfig(c.ertm.value, payload.value);
          AfterEngineIsGood(m, pdu.cid, Ertm.ReceiveFrame(c.ertm.value, payload.value));
        }
      } else {
        UpdateIsGood(m, pdu.cid, c.(received := c.received + [pdu.payload]));
      }
    }
  }

  lemma SendIsGood(m: Manager, cid: u16, sdu: seq<byte>)
    requires Inv(m) && EnginesValid(m)
    ensures Good(m, Send(m, cid, sdu).manager)
  {
    hide Good, AfterEngine, Ertm.SendSdu;
    if cid in m.channels && m.channels[cid].state == Open && m.channels[cid].ertm.Some? {
      var e := m.channels[cid].ertm.value;
      Ertm.CallsKeepConfig(e, sdu, false, 0);
      AfterEngineIsGood(m, cid, Ertm.SendSdu(e, sdu));
    } else {
      SameIsGood(m, Send(m, cid, sdu).manager);
    }
  }

  lemma BusyIsGood(m: Manager, cid: u16, busy: bool)
    requires Inv(m)
    ensures Good(m, SetReceiverBusy(m, cid, busy).manager)
  {
    hide Good, AfterEngine, Ertm.SetReceiverBusy;
    SameIsGood(m, m);
    if cid in m.channels && m.channels[cid].ertm.Some? {
      Ertm.CallsKeepConfig(m.channels[cid].ertm.value, [], busy, 0);
      AfterEngineIsGood(m, cid, Ertm.SetReceiverBusy(m.channels[cid].ertm.value, busy));
    }
  }

  // Like Good, for operations that announce nothing: several of them in a row still announce nothing.
  ghost predicate Quiet(m: Manager, n: Manager) { Good(m, n) && n.accepted == m.accepted }

  lemma QuietTransitive(m: Manager, n: Manager, o: Manager)
    requires Quiet(m, n) && Quiet(n, o)
    ensures Quiet(m, o)
  {
    forall cid <- m.channels ensures cid in o.channels && Forward(m.channels[cid], o.channels[cid]) {
      assert Forward(m.channels[cid], n.channels[cid]) && Forward(n.channels[cid], o.channels[cid]);
    }
  }

  lemma AfterEngineKeepsAccepted(m: Manager, cid: u16, step: Ertm.Step)
    requires cid in m.channels
    ensures AfterEngine(m, cid, step).manager.accepted == m.accepted
  {
    hide QueueFrames;
    var c, e := m.channels[cid], step.engine;
    var d := c.(ertm := Some(Drained(e)), received := c.received + e.received);
    var n := m.(channels := m.channels[cid := c.(ertm := Some(e))]);
    QueueFramesSame(n.(channels := n.channels[cid := d]), c.destinationCid, c.fcsEnabled, e.outbound);
  }

  lemma {:induction false} TickIsQuiet(m: Manager, cid: nat, ticks: u32)
    requires Inv(m) && cid <= 0x1_0000
    ensures Quiet(m, Tick(m, cid, ticks).manager)
    decreases 0x1_0000 - cid
  {
    hide Good, AfterEngine, Ertm.Tick;
    SameIsGood(m, m);
    if cid <= 0xFFFF {
      if cid in m.channels && m.channels[cid].ertm.Some? {
        var step := Ertm.Tick(m.channels[cid].ertm.value, ticks);
        Ertm.CallsKeepConfig(m.channels[cid].ertm.value, [], false, ticks);
        AfterEngineIsGood(m, cid, step);
        AfterEngineKeepsAccepted(m, cid, step);
        var r := AfterEngine(m, cid, step);
        if r.error.None? {
          GoodKeepsInv(m, r.manager);
          TickIsQuiet(r.manager, cid + 1, ticks);
          QuietTransitive(m, r.manager, Tick(r.manager, cid + 1, ticks).manager);
        }
      } else {
        TickIsQuiet(m, cid + 1, ticks);
      }
    }
  }

  lemma GoodKeepsInv(m: Manager, n: Manager)
    requires Good(m, n)
    ensures Inv(n)
  {
  }

  lemma ConnectIsGood(m: Manager, psm: u32, spec: ChannelSpec)
    requires Inv(m)
    ensures Good(m, Connect(m, psm, spec).0)
  {
    hide EncodeFrame;
    var cid := FreeCid(m.channels, FIRST_CID);
    if ValidPsm(psm) && ValidSpec(spec) && cid.Some? {
      var c := OutgoingChannel(psm, cid.value, spec);
      AddIsGood(m, c);
      SameThenGood(m, Put(m, c), Connect(m, psm, spec).0);
    } else {
      SameIsGood(m, m);
    }
  }

  lemma ServersAreGood(m: Manager, psm: Option<u32>, spec: ChannelSpec, server: u32)
    requires Inv(m)
    ensures Good(m, RegisterServer(m, psm, spec).0) && Good(m, UnregisterServer(m, server))
  {
    hide ChannelOk, ValidSpec, FreePsm, ValidPsm;
  }

  lemma PollsAreGood(m: Manager, cid: u16)
    requires Inv(m)
    ensures Good(m, PollAccepted(m)) && Good(m, PopReceived(m, cid)) && Good(m, PollOutbound(m))
  {
    hide ValidSpec;
    SameIsGood(m, PollOutbound(m));
    if cid in m.channels && m.channels[cid].received != [] {
      UpdateIsGood(m, cid, m.channels[cid].(received := m.channels[cid].received[1..]));
    }
  }

  /** Every call, and every PDU whatever its bytes, keeps the invariant and only moves channels forward. */
  lemma PerformIsGood(m: Manager, op: Operation)
    requires Inv(m)
    ensures EnginesValid(m) && Good(m, Perform(m, op))
  {
    hide Good, ProcessPdu, Send, Disconnect, SetReceiverBusy, Tick, Connect, RequestInformation, RegisterServer,
         UnregisterServer, PollAccepted, PopReceived, PollOutbound;
    match op
    case Register(psm, spec) => ServersAreGood(m, psm, spec, 0);
    case Unregister(psm) => ServersAreGood(m, None, Basic(0), psm);
    case ConnectTo(psm, spec) => ConnectIsGood(m, psm, spec);
    case Process(pdu) => ProcessPduIsGood(m, pdu);
    case SendSdu(cid, sdu) => SendIsGood(m, cid, sdu);
    case Close(cid) => ClosingIsGood(m, 0, cid, 0);
    case SetBusy(cid, busy) => BusyIsGood(m, cid, busy);
    case Elapse(ticks) => TickIsQuiet(m, 0, ticks);
    case Inquire(infoType) => InquireIsGood(m, infoType);
    case TakeOutbound => PollsAreGood(m, 0);
    case TakeAccepted => PollsAreGood(m, 0);
    case TakeReceived(cid) => PollsAreGood(m, cid);
  }

  lemma InquireIsGood(m: Manager, infoType: u16)
    requires Inv(m)
    ensures Good(m, RequestInformation(m, infoType))
  {
    SameIsGood(m, RequestInformation(m, infoType));
  }

  // ---------------------------------------------------------------------------
  // Whole runs
  // ---------------------------------------------------------------------------

  ghost predicate Run(states: seq<Manager>, ops: seq<Operation>, information: Capabilities) {
    && |states| == |ops| + 1
    && states[0] == New(information)
    && forall i :: 0 <= i < |ops| ==> EnginesValid(states[i]) && states[i + 1] == Perform(states[i], ops[i])
  }

  lemma {:induction false} RunKeeps(states: seq<Manager>, ops: seq<Operation>, information: Capabilities, n: nat)
    requires Run(states, ops, information) && n < |states|
    ensures Inv(states[n])
    ensures n > 0 ==> Evolves(states[n - 1], states[n])
  {
    hide Perform;
    if n > 0 {
      RunKeeps(states, ops, information, n - 1);
      PerformIsGood(states[n - 1], ops[n - 1]);
      assert states[n - 1 + 1] == Perform(states[n - 1], ops[n - 1]);
    }
  }

  /** Channels are never forgotten and only move forward: no CID is reused, no state revisited. */
  lemma {:induction false} ChannelsOnlyMoveForward(
      states: seq<Manager>, ops: seq<Operation>, information: Capabilities, i: nat, j: nat, cid: u16)
    requires Run(states, ops, information) && i <= j < |states| && cid in states[i].channels
    ensures cid in states[j].channels && Forward(states[i].channels[cid], states[j].channels[cid])
  {
    hide Run, Perform;
    if i < j {
      ChannelsOnlyMoveForward(states, ops, information, i, j - 1, cid);
      RunKeeps(states, ops, information, j);
      assert Forward(states[j - 1].channels[cid], states[j].channels[cid]);
    }
  }

  /** What holds of every channel at every moment of every run. */
  lemma OpenMeansConfigured(states: seq<Manager>, ops: seq<Operation>, information: Capabilities, n: nat, cid: u16)
    requires Run(states, ops, information) && n < |states| && cid in states[n].channels
    ensures var c := states[n].channels[cid];
            && c.peerMtu >= MIN_MTU
            && (c.state == Open ==> c.peerConfigured && c.responseReceived)
            && (c.state == Open ==> (c.ertm.Some? <==> c.spec.Enhanced?))
  {
    RunKeeps(states, ops, information, n);
  }

  // The step from `m` to `n` announced the channel `cid`.
  predicate Announces(m: Manager, n: Manager, cid: u16) { n.accepted == m.accepted + [cid] }

  /** Only an incoming channel that has just opened is announced. */
  lemma AnnouncedWhenOpened(states: seq<Manager>, ops: seq<Operation>, information: Capabilities, i: nat, cid: u16)
    requires Run(states, ops, information) && i < |states| - 1 && Announces(states[i], states[i + 1], cid)
    ensures !Announced(states[i], cid) && OpenAndAnnounced(states[i + 1], cid) && states[i + 1].channels[cid].incoming
  {
    hide Run, Perform, Forward;
    RunKeeps(states, ops, information, i + 1);
    AnnouncedNow(states[i], states[i + 1], cid);
  }

  /** No channel is announced twice in a run. */
  lemma AnnouncedOnce(states: seq<Manager>, ops: seq<Operation>, information: Capabilities, i: nat, j: nat, cid: u16)
    requires Run(states, ops, information) && i < j < |states| - 1
    requires Announces(states[i], states[i + 1], cid)
    ensures !Announces(states[j], states[j + 1], cid)
  {
    hide Run, Perform, Forward;
    AnnouncedWhenOpened(states, ops, information, i, cid);
    StaysAnnounced(states, ops, information, i + 1, j, cid);
    if Announces(states[j], states[j + 1], cid) { AnnouncedWhenOpened(states, ops, information, j, cid); }
  }

  lemma AnnouncedNow(m: Manager, n: Manager, cid: u16)
    requires Evolves(m, n) && Announces(m, n, cid)
    ensures !Announced(m, cid) && OpenAndAnnounced(n, cid)
  {
    var other: u16 :| n.accepted == m.accepted + [other] && !Announced(m, other) && OpenAndAnnounced(n, other);
    assert (m.accepted + [other])[|m.accepted|] == (m.accepted + [cid])[|m.accepted|];
  }

  lemma StaysAnnounced(states: seq<Manager>, ops: seq<Operation>, information: Capabilities, i: nat, j: nat, cid: u16)
    requires Run(states, ops, information) && i <= j < |states| && Announced(states[i], cid)
    ensures Announced(states[j], cid)
  {
    hide Run, Perform;
    ChannelsOnlyMoveForward(states, ops, information, i, j, cid);
  }
}
