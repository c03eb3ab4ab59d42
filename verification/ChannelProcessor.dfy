/**
  * The channel manager as the mutable object it is. Its methods update the server
  * and channel maps, the queues and the identifier in place, with the loops of the
  * original, and each is proved to take the state to what module Channels says.
  */
module ChannelProcessor {
  import opened Bytes
  import opened Signaling
  import Spec = Channels
  import opened Channels
  import Ertm
  import Fcs

  lemma NegotiateFrom(enhanced: bool, n: Negotiation, options: seq<ConfigurationOption>, i: nat)
    requires i < |options|
    ensures var next := Consider(enhanced, n, options[i]);
            Negotiate(enhanced, n, options[i..])
            == if next.result != SUCCESS then next else Negotiate(enhanced, next, options[i + 1..])
  {
    assert options[i..][1..] == options[i + 1..];
  }

  class ChannelManager {
    var servers: map<u32, ChannelSpec>
    var channels: map<u16, Channel>
    var accepted: seq<u16>
    var outbound: seq<Pdu>
    const information: Capabilities
    var replies: seq<InformationReply>
    var identifier: byte

    ghost function View(): Manager
      reads this
    {
      Manager(servers, channels, accepted, outbound, information, replies, identifier)
    }

    constructor (capabilities: Capabilities)
      ensures View() == New(capabilities)
    {
      servers, channels, accepted, outbound, replies, identifier := map[], map[], [], [], [], 0;
      information := capabilities;
    }

    method QueueControl(f: ControlFrame)
      modifies this
      ensures View() == Spec.QueueControl(old(View()), f)
    {
      outbound := outbound + [Pdu(SIGNALING_CID, EncodeFrame(f))];
    }

    method AllocateIdentifier() returns (id: byte)
      modifies this
      ensures View() == old(View()).(identifier := id) && id == NextIdentifier(old(identifier))
    {
      identifier := (identifier + 1) % 0x100;
      if identifier == 0 { identifier := 1; }
      id := identifier;
    }

    method AllocateCid() returns (r: Option<u16>)
      ensures r == FreeCid(channels, FIRST_CID)
    {
      var cid: nat := FIRST_CID;
      while cid <= 0xFFFF
        invariant FIRST_CID <= cid <= 0x1_0000
        invariant FreeCid(channels, cid) == FreeCid(channels, FIRST_CID)
      {
        if cid !in channels { return Some(cid); }
        cid := cid + 1;
      }
      r := None;
    }

    method AllocatePsm() returns (r: Option<u32>)
      ensures r == FreePsm(servers, 0x1001)
    {
      var psm: nat := 0x1001;
      while psm <= 0xFFFF
        invariant 0x1001 <= psm <= 0x1_0001 && psm % 2 == 1
        invariant FreePsm(servers, psm) == FreePsm(servers, 0x1001)
      {
        if ValidPsm(psm) && psm !in servers { return Some(psm); }
        psm := psm + 2;
      }
      r := None;
    }

    method RegisterServer(psm: Option<u32>, spec: ChannelSpec) returns (r: Result<u32, Error>)
      modifies this
      ensures (View(), r) == Spec.RegisterServer(old(View()), psm, spec)
    {
      if !ValidSpec(spec) { return Failure(InvalidSpec); }
      var chosen: u32;
      match psm {
        case Some(p) =>
          if !ValidPsm(p) { return Failure(InvalidPsm); }
          if p in servers { return Failure(PsmInUse); }
          chosen := p;
        case None =>
          var free := AllocatePsm();
          if free.None? { return Failure(NoFreePsm); }
          chosen := free.value;
      }
      servers := servers[chosen := spec];
      r := Success(chosen);
    }

    method UnregisterServer(psm: u32) returns (existed: bool)
      modifies this
      ensures View() == Spec.UnregisterServer(old(View()), psm) && existed == (psm in old(servers))
    {
      existed := psm in servers;
      servers := servers - {psm};
    }

    method Connect(psm: u32, spec: ChannelSpec) returns (r: Result<u16, Error>)
      modifies this
      ensures (View(), r) == Spec.Connect(old(View()), psm, spec)
    {
      if !ValidPsm(psm) { return Failure(InvalidPsm); }
      if !ValidSpec(spec) { return Failure(InvalidSpec); }
      var cid := AllocateCid();
      if cid.None? { return Failure(NoFreeCid); }
      var id := AllocateIdentifier();
      channels := channels[cid.value := OutgoingChannel(psm, cid.value, spec)];
      QueueControl(ConnectionRequest(id, psm, cid.value));
      r := Success(cid.value);
    }

    method QueueConfigureRequest(cid: u16) returns (error: Option<Error>)
      modifies this
      ensures Outcome(View(), error) == Spec.QueueConfigureRequest(old(View()), cid)
    {
      hide EncodeFrame, EncodeOptions;
      if cid !in channels { return Some(UnknownCid); }
      var c := channels[cid];
      var id := AllocateIdentifier();
      var options := [MtuOption(c.spec.mtu)];
      if c.spec.Enhanced? {
        options := options + [EnhancedOption(c.spec)];
        if c.spec.fcs { options := options + [FcsOption(true)]; }
      }
      assert options == Proposal(c.spec);
      var encoded := TryEncodeOptions(options);
      if encoded.Failure? { return Some(Codec(encoded.error)); }
      QueueControl(ConfigureRequest(id, c.destinationCid, 0, encoded.value));
      error := None;
    }

    method MaybeOpen(cid: u16)
      modifies this
      ensures View() == Spec.MaybeOpen(old(View()), cid)
    {
      if cid !in channels { return; }
      var c := channels[cid];
      if c.peerConfigured && c.responseReceived && c.state == Configuring {
        c := c.(state := Open);
        if c.incoming && !c.announced {
          c := c.(announced := true);
          accepted := accepted + [cid];
        }
        channels := channels[cid := c];
      }
    }

    // The option loop of a configuration request: stops at the first option it refuses.
    method ConsiderOptions(enhanced: bool, peerMtu: u16, options: seq<ConfigurationOption>) returns (n: Negotiation)
      ensures n == Negotiate(enhanced, Negotiation(SUCCESS, [], peerMtu, None, None), options)
    {
      n := Negotiation(SUCCESS, [], peerMtu, None, None);
      ghost var start := n;
      var i := 0;
      while i < |options|
        invariant 0 <= i <= |options|
        invariant n.result == SUCCESS
        invariant Negotiate(enhanced, n, options[i..]) == Negotiate(enhanced, start, options)
      {
        NegotiateFrom(enhanced, n, options, i);
        n := Consider(enhanced, n, options[i]);
        if n.result != SUCCESS { return; }
        i := i + 1;
      }
    }

    method OnConfigureRequest(id: byte, cid: u16, flags: u16, encoded: seq<byte>) returns (error: Option<Error>)
      modifies this
      ensures Outcome(View(), error) == Spec.OnConfigureRequest(old(View()), id, cid, flags, encoded)
    {
      hide Negotiate, EncodeFrame, DecodeOptions, EncodeOptions;
      var options := DecodeOptions(encoded);
      if options.Failure? { return Some(Codec(options.error)); }
      if cid !in channels { return Some(UnknownCid); }
      var c := channels[cid];
      var remote := c.destinationCid;
      var n := ConsiderOptions(c.spec.Enhanced?, c.peerMtu, options.value);
      c := c.(peerMtu := n.peerMtu);
      var result, response := n.result, n.response;
      if result == SUCCESS && flags % 2 == 0 {
        var v := Conclude(c, n);
        c := v.channel;
        if v.engineFailed {
          channels := channels[cid := c];
          return Some(EngineConfig);
        }
        result, response := v.result, v.response;
        c := if result == SUCCESS then c.(peerConfigured := true)
            else c.(state := Closed, connectionResult := Some(result));
      }
      channels := channels[cid := c];
      var answer := TryEncodeOptions(response);
      if answer.Failure? { return Some(Codec(answer.error)); }
      QueueControl(ConfigureResponse(id, remote, 0, result, answer.value));
      MaybeOpen(cid);
      error := None;
    }

    method OnConfigureResponse(cid: u16, result: u16) returns (error: Option<Error>)
      modifies this
      ensures Outcome(View(), error) == Spec.OnConfigureResponse(old(View()), cid, result)
    {
      if cid !in channels { return Some(UnknownCid); }
      if result == SUCCESS {
        channels := channels[cid := channels[cid].(responseReceived := true)];
      } else {
        channels := channels[cid := channels[cid].(connectionResult := Some(result), state := Closed)];
      }
      MaybeOpen(cid);
      error := None;
    }

    method OnConnectionRequest(id: byte, psm: u32, remote: u16) returns (error: Option<Error>)
      modifies this
      ensures Outcome(View(), error) == Spec.OnConnectionRequest(old(View()), id, psm, remote)
    {
      hide EncodeFrame, Spec.QueueConfigureRequest, FreeCid;
      if psm !in servers {
        QueueControl(ConnectionResponse(id, 0, remote, REFUSED_PSM, 0));
        return None;
      }
      var cid := AllocateCid();
      if cid.None? {
        QueueControl(ConnectionResponse(id, 0, remote, REFUSED_RESOURCES, 0));
        return None;
      }
      channels := channels[cid.value := IncomingChannel(psm, cid.value, remote, servers[psm])];
      QueueControl(ConnectionResponse(id, cid.value, remote, SUCCESS, 0));
      error := QueueConfigureRequest(cid.value);
    }

    method OnConnectionResponse(destination: u16, cid: u16, result: u16) returns (error: Option<Error>)
      modifies this
      ensures Outcome(View(), error) == Spec.OnConnectionResponse(old(View()), destination, cid, result)
    {
      hide Spec.QueueConfigureRequest;
      if cid !in channels { return Some(UnknownCid); }
      var c := channels[cid];
      if c.state != WaitConnectResponse { return Some(InvalidState); }
      c := c.(connectionResult := Some(result));
      if result != SUCCESS {
        channels := channels[cid := c.(state := Closed)];
        return None;
      }
      channels := channels[cid := c.(destinationCid := destination, state := Configuring)];
      error := QueueConfigureRequest(cid);
    }

    method OnDisconnectionRequest(id: byte, cid: u16, remote: u16) returns (error: Option<Error>)
      modifies this
      ensures Outcome(View(), error) == Spec.OnDisconnectionRequest(old(View()), id, cid, remote)
    {
      if cid !in channels { return Some(UnknownCid); }
      if channels[cid].destinationCid != remote { return Some(CidMismatch); }
      channels := channels[cid := channels[cid].(state := Closed)];
      QueueControl(DisconnectionResponse(id, cid, remote));
      error := None;
    }

    method OnDisconnectionResponse(destination: u16, cid: u16) returns (error: Option<Error>)
      modifies this
      ensures Outcome(View(), error) == Spec.OnDisconnectionResponse(old(View()), destination, cid)
    {
      if cid !in channels { return Some(UnknownCid); }
      if channels[cid].destinationCid != destination { return Some(CidMismatch); }
      channels := channels[cid := channels[cid].(state := Closed)];
      error := None;
    }

    method Disconnect(cid: u16) returns (error: Option<Error>)
      modifies this
      ensures Outcome(View(), error) == Spec.Disconnect(old(View()), cid)
    {
      if cid !in channels { return Some(UnknownCid); }
      var c := channels[cid];
      if c.state != Open { return Some(NotOpen); }
      channels := channels[cid := c.(state := WaitDisconnect)];
      var id := AllocateIdentifier();
      QueueControl(DisconnectionRequest(id, c.destinationCid, cid));
      error := None;
    }

    method ProcessControl(f: ControlFrame) returns (error: Option<Error>)
      modifies this
      ensures Outcome(View(), error) == Spec.ProcessControl(old(View()), f)
    {
      hide EncodeFrame, Inform, Spec.OnConnectionRequest, Spec.OnConnectionResponse, Spec.OnConfigureRequest,
           Spec.OnConfigureResponse, Spec.OnDisconnectionRequest, Spec.OnDisconnectionResponse;
      error := None;
      match f {
        case ConnectionRequest(id, psm, source) => error := OnConnectionRequest(id, psm, source);
        case ConnectionResponse(_, destination, source, result, _) =>
          error := OnConnectionResponse(destination, source, result);
        case ConfigureRequest(id, destination, flags, options) =>
          error := OnConfigureRequest(id, destination, flags, options);
        case ConfigureResponse(_, source, _, result, _) => error := OnConfigureResponse(source, result);
        case DisconnectionRequest(id, destination, source) => error := OnDisconnectionRequest(id, destination, source);
        case DisconnectionResponse(_, destination, source) => error := OnDisconnectionResponse(destination, source);
        case EchoRequest(id, data) => QueueControl(EchoResponse(id, data));
        case InformationRequest(id, infoType) => QueueControl(Inform(information, id, infoType));
        case InformationResponse(id, infoType, result, data) =>
          replies := replies + [InformationReply(id, infoType, result, data)];
        case _ =>
      }
    }

    // The frames an engine has ready, queued towards the peer.
    method QueueFrames(destination: u16, fcs: bool, frames: seq<seq<byte>>) returns (error: Option<Error>)
      modifies this
      ensures Outcome(View(), error) == Spec.QueueFrames(old(View()), destination, fcs, frames)
    {
      hide Fcs.AppendFcs;
      var i := 0;
      while i < |frames|
        invariant 0 <= i <= |frames|
        invariant Spec.QueueFrames(View(), destination, fcs, frames[i..])
                  == Spec.QueueFrames(old(View()), destination, fcs, frames)
      {
        var payload := if fcs then Fcs.AppendFcs(destination, frames[i]) else Success(frames[i]);
        assert frames[i..][0] == frames[i] && frames[i..][1..] == frames[i + 1..];
        if payload.Failure? { return Some(Check(payload.error)); }
        outbound := outbound + [Pdu(destination, payload.value)];
        i := i + 1;
      }
      error := None;
    }

    method FlushErtm(cid: u16) returns (error: Option<Error>)
      modifies this
      ensures Outcome(View(), error) == Spec.FlushErtm(old(View()), cid)
    {
      if cid !in channels { return Some(UnknownCid); }
      var c := channels[cid];
      if c.ertm.None? { return Some(NotEnhanced); }
      var e := c.ertm.value;
      channels := channels[cid := c.(ertm := Some(Drained(e)), received := c.received + e.received)];
      error := QueueFrames(c.destinationCid, c.fcsEnabled, e.outbound);
    }

    method AfterEngine(cid: u16, step: Ertm.Step) returns (error: Option<Error>)
      requires cid in channels
      modifies this
      ensures Outcome(View(), error) == Spec.AfterEngine(old(View()), cid, step)
    {
      hide Spec.FlushErtm;
      channels := channels[cid := channels[cid].(ertm := Some(step.engine))];
      if step.error.Some? { return Some(Engine(step.error.value)); }
      error := FlushErtm(cid);
    }

    method ProcessPdu(pdu: Pdu) returns (error: Option<Error>)
      modifies this
      ensures Outcome(View(), error) == Spec.ProcessPdu(old(View()), pdu)
    {
      hide Spec.AfterEngine, Spec.ProcessControl, DecodeFrame, Fcs.VerifyAndStripFcs, Ertm.ReceiveFrame;
      if pdu.cid == SIGNALING_CID {
        var f := DecodeFrame(pdu.payload);
        if f.Failure? { return Some(Codec(f.error)); }
        error := ProcessControl(f.value);
        return;
      }
      if pdu.cid !in channels { return Some(UnknownCid); }
      var c := channels[pdu.cid];
      if c.state != Open { return Some(NotOpen); }
      if c.ertm.Some? {
        var payload := if c.fcsEnabled then Fcs.VerifyAndStripFcs(pdu.cid, pdu.payload) else Success(pdu.payload);
        if payload.Failure? { return Some(Check(payload.error)); }
        error := AfterEngine(pdu.cid, Ertm.ReceiveFrame(c.ertm.value, payload.value));
      } else {
        if |pdu.payload| > c.spec.mtu { return Some(SduTooLong); }
        channels := channels[pdu.cid := c.(received := c.received + [pdu.payload])];
        error := None;
      }
    }

    method Send(cid: u16, sdu: seq<byte>) returns (error: Option<Error>)
      requires EnginesValid(View())
      modifies this
      ensures Outcome(View(), error) == Spec.Send(old(View()), cid, sdu)
    {
      hide Spec.AfterEngine, Ertm.SendSdu;
      if cid !in channels { return Some(UnknownCid); }
      var c := channels[cid];
      if c.state != Open { return Some(NotOpen); }
      if c.ertm.Some? {
        error := AfterEngine(cid, Ertm.SendSdu(c.ertm.value, sdu));
      } else {
        if |sdu| > c.peerMtu { return Some(SduTooLong); }
        outbound := outbound + [Pdu(c.destinationCid, sdu)];
        error := None;
      }
    }

    method SetReceiverBusy(cid: u16, busy: bool) returns (error: Option<Error>)
      modifies this
      ensures Outcome(View(), error) == Spec.SetReceiverBusy(old(View()), cid, busy)
    {
      hide Spec.AfterEngine, Ertm.SetReceiverBusy;
      if cid !in channels { return Some(UnknownCid); }
      var c := channels[cid];
      if c.ertm.None? { return Some(NotEnhanced); }
      error := AfterEngine(cid, Ertm.SetReceiverBusy(c.ertm.value, busy));
    }

    method Tick(ticks: u32) returns (error: Option<Error>)
      modifies this
      ensures Outcome(View(), error) == Spec.Tick(old(View()), 0, ticks)
    {
      hide Spec.AfterEngine, Ertm.Tick;
      var cid: nat := 0;
      while cid <= 0xFFFF
        invariant cid <= 0x1_0000
        invariant Spec.Tick(View(), cid, ticks) == Spec.Tick(old(View()), 0, ticks)
      {
        if cid in channels && channels[cid].ertm.Some? {
          error := AfterEngine(cid, Ertm.Tick(channels[cid].ertm.value, ticks));
          if error.Some? { return; }
        }
        cid := cid + 1;
      }
      error := None;
    }

    method RequestInformation(infoType: u16) returns (id: byte)
      modifies this
      ensures View() == Spec.RequestInformation(old(View()), infoType) && id == identifier
    {
      id := AllocateIdentifier();
      QueueControl(InformationRequest(id, infoType));
    }

    method PollOutbound() returns (r: Option<Pdu>)
      modifies this
      ensures View() == Spec.PollOutbound(old(View()))
      ensures r == if old(outbound) == [] then None else Some(old(outbound)[0])
    {
      if outbound == [] { return None; }
      r, outbound := Some(outbound[0]), outbound[1..];
    }

    method PollAccepted() returns (r: Option<u16>)
      modifies this
      ensures View() == Spec.PollAccepted(old(View()))
      ensures r == if old(accepted) == [] then None else Some(old(accepted)[0])
    {
      if accepted == [] { return None; }
      r, accepted := Some(accepted[0]), accepted[1..];
    }
  }
}
