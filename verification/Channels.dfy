/**
  * The Classic L2CAP channel manager: connecting, configuring, opening, using and
  * closing channels, as functions on the manager's state.
  */
module Channels {
  import opened Bytes
  import opened Signaling
  import Ertm
  import Fcs

  const MIN_MTU: u16 := 48
  const DEFAULT_MPS: u16 := 1010
  const SIGNALING_CID: u16 := 0x0001
  const FIRST_CID: u16 := 0x0040

  const SUCCESS: u16 := 0
  const REFUSED_PSM: u16 := 2
  const REFUSED_RESOURCES: u16 := 4
  const UNACCEPTABLE: u16 := 1
  const UNKNOWN_OPTION: u16 := 3

  const OPTION_MTU: byte := 0x01
  const OPTION_RETRANSMISSION: byte := 0x04
  const OPTION_FCS: byte := 0x05
  const MODE_ENHANCED: byte := 0x03

  datatype ChannelSpec =
    | Basic(mtu: u16)
    | Enhanced(
        mtu: u16, mps: u16, txWindowSize: byte, maxRetransmissions: byte,
        retransmissionTimeout: u16, monitorTimeout: u16, fcs: bool)

  predicate ValidSpec(s: ChannelSpec) {
    && s.mtu >= MIN_MTU
    && (s.Enhanced? ==> s.mps > 0 && 1 <= s.txWindowSize < 64 && s.retransmissionTimeout > 0 && s.monitorTimeout > 0)
  }

  datatype ChannelState = WaitConnectResponse | Configuring | Open | WaitDisconnect | Closed

  datatype Channel = Channel(
    psm: u32,
    sourceCid: u16,
    destinationCid: u16,
    peerMtu: u16,
    peerMps: u16,
    fcsEnabled: bool,
    state: ChannelState,
    connectionResult: Option<u16>,
    incoming: bool,
    peerConfigured: bool,
    responseReceived: bool,
    announced: bool,
    spec: ChannelSpec,
    ertm: Option<Ertm.Engine>,
    received: seq<seq<byte>>)

  function OutgoingChannel(psm: u32, cid: u16, spec: ChannelSpec): Channel {
    Channel(psm, cid, 0, MIN_MTU, DEFAULT_MPS, false, WaitConnectResponse, None, false, false, false, false, spec, None,
            [])
  }

  function IncomingChannel(psm: u32, cid: u16, remote: u16, spec: ChannelSpec): Channel {
    Channel(psm, cid, remote, MIN_MTU, DEFAULT_MPS, false, Configuring, Some(SUCCESS), true, false, false, false, spec,
            None, [])
  }

  datatype Capabilities = Capabilities(connectionlessMtu: u16, extendedFeatures: u32, fixedChannels: u64)

  datatype InformationReply = InformationReply(identifier: byte, infoType: u16, result: u16, data: seq<byte>)

  datatype Manager = Manager(
    servers: map<u32, ChannelSpec>,
    channels: map<u16, Channel>,
    accepted: seq<u16>,
    outbound: seq<Pdu>,
    information: Capabilities,
    replies: seq<InformationReply>,
    identifier: byte)

  datatype Error =
    | Codec(codec: CodecError)
    | Engine(engine: Ertm.Error)
    | EngineConfig
    | Check(check: Fcs.FcsError)
    | InvalidPsm
    | InvalidSpec
    | PsmInUse
    | NoFreeCid
    | NoFreePsm
    | UnknownCid
    | InvalidState
    | NotOpen
    | SduTooLong
    | CidMismatch
    | NotEnhanced

  datatype Outcome = Outcome(manager: Manager, error: Option<Error>)

  function Done(m: Manager): Outcome { Outcome(m, None) }

  function Fail(m: Manager, error: Error): Outcome { Outcome(m, Some(error)) }

  function New(information: Capabilities): Manager { Manager(map[], map[], [], [], information, [], 0) }

  function Put(m: Manager, c: Channel): Manager { m.(channels := m.channels[c.sourceCid := c]) }

  function QueueControl(m: Manager, f: ControlFrame): Manager {
    m.(outbound := m.outbound + [Pdu(SIGNALING_CID, EncodeFrame(f))])
  }

  // The counter after `next_identifier`: it wraps past zero.
  function NextIdentifier(id: byte): byte { if id == 0xFF then 1 else id + 1 }

  // The lowest dynamic CID from `cid` on that no channel has.
  function FreeCid(channels: map<u16, Channel>, cid: nat): (r: Option<u16>)
    requires cid <= 0x1_0000
    ensures r.Some? ==> cid <= r.value && r.value !in channels
    decreases 0x1_0000 - cid
  {
    if cid > 0xFFFF then None else if cid in channels then FreeCid(channels, cid + 1) else Some(cid)
  }

  // ---------------------------------------------------------------------------
  // Servers and outgoing connections
  // ---------------------------------------------------------------------------

  // The lowest valid dynamic PSM from `psm` on that no server has.
  function FreePsm(servers: map<u32, ChannelSpec>, psm: nat): Option<u32>
    requires psm <= 0x1_0001
    decreases 0x1_0002 - psm
  {
    if psm > 0xFFFF then None
    else if ValidPsm(psm) && psm !in servers then Some(psm)
    else FreePsm(servers, psm + 2)
  }

  function RegisterServer(m: Manager, psm: Option<u32>, spec: ChannelSpec): (Manager, Result<u32, Error>) {
    if !ValidSpec(spec) then (m, Failure(InvalidSpec))
    else
      match psm
      case Some(p) =>
        if !ValidPsm(p) then (m, Failure(InvalidPsm))
        else if p in m.servers then (m, Failure(PsmInUse))
        else (m.(servers := m.servers[p := spec]), Success(p))
      case None =>
        var free := FreePsm(m.servers, 0x1001);
        if free.None? then (m, Failure(NoFreePsm))
        else (m.(servers := m.servers[free.value := spec]), Success(free.value))
  }

  function UnregisterServer(m: Manager, psm: u32): Manager { m.(servers := m.servers - {psm}) }

  function Connect(m: Manager, psm: u32, spec: ChannelSpec): (Manager, Result<u16, Error>) {
    if !ValidPsm(psm) then (m, Failure(InvalidPsm))
    else if !ValidSpec(spec) then (m, Failure(InvalidSpec))
    else
      var cid := FreeCid(m.channels, FIRST_CID);
      if cid.None? then (m, Failure(NoFreeCid))
      else
        var id := NextIdentifier(m.identifier);
        (QueueControl(Put(m.(identifier := id), OutgoingChannel(psm, cid.value, spec)),
                      ConnectionRequest(id, psm, cid.value)),
         Success(cid.value))
  }

  // ---------------------------------------------------------------------------
  // Configuration
  // ---------------------------------------------------------------------------

  function EnhancedOption(s: ChannelSpec): ConfigurationOption
    requires s.Enhanced?
  {
    ConfigurationOption(OPTION_RETRANSMISSION, false,
                        [MODE_ENHANCED, s.txWindowSize, s.maxRetransmissions]
                        + Le16(s.retransmissionTimeout) + Le16(s.monitorTimeout) + Le16(s.mps))
  }

  function MtuOption(mtu: u16): ConfigurationOption { ConfigurationOption(OPTION_MTU, false, Le16(mtu)) }

  function FcsOption(on: bool): ConfigurationOption { ConfigurationOption(OPTION_FCS, false, [if on then 1 else 0]) }

  // What `queue_configure_request` asks of the peer.
  function Proposal(s: ChannelSpec): seq<ConfigurationOption> {
    [MtuOption(s.mtu)]
    + (if s.Enhanced? then [EnhancedOption(s)] + (if s.fcs then [FcsOption(true)] else []) else [])
  }

  function TryEncodeOptions(options: seq<ConfigurationOption>): Result<seq<byte>, CodecError> {
    if forall o <- options :: Measurable(o) then Success(EncodeOptions(options)) else Failure(OptionTooLong)
  }

  function QueueConfigureRequest(m: Manager, cid: u16): Outcome {
    if cid !in m.channels then Fail(m, UnknownCid)
    else
      var c, id := m.channels[cid], NextIdentifier(m.identifier);
      var encoded := TryEncodeOptions(Proposal(c.spec));
      if encoded.Failure? then Fail(m.(identifier := id), Codec(encoded.error))
      else Done(QueueControl(m.(identifier := id), ConfigureRequest(id, c.destinationCid, 0, encoded.value)))
  }

  datatype PeerErtm = PeerErtm(mode: byte, txWindowSize: byte, maxRetransmissions: byte, mps: u16)

  function DecodeErtmOption(value: seq<byte>): Option<PeerErtm> {
    if |value| != 9 then None else Some(PeerErtm(value[0], value[1], value[2], Le16At(value, 7)))
  }

  // The option loop's variables: the verdict so far, the answer, and what the peer asked for.
  datatype Negotiation = Negotiation(
    result: u16, response: seq<ConfigurationOption>, peerMtu: u16, ertm: Option<PeerErtm>, fcs: Option<bool>)

  function Refuse(n: Negotiation, result: u16, option: ConfigurationOption): Negotiation {
    n.(result := result, response := [option])
  }

  predicate AcceptableErtm(enhanced: bool, p: PeerErtm) {
    && p.mode == (if enhanced then MODE_ENHANCED else 0)
    && (p.mode == MODE_ENHANCED ==> 1 <= p.txWindowSize < 64 && p.mps != 0)
  }

  // One option; a refusal ends the loop.
  function Consider(enhanced: bool, n: Negotiation, o: ConfigurationOption): Negotiation {
    if o.optionType == OPTION_MTU then
      if |o.value| != 2 then Refuse(n, UNACCEPTABLE, o)
      else
        var mtu := Le16At(o.value, 0);
        if mtu < MIN_MTU then Refuse(n, UNACCEPTABLE, MtuOption(MIN_MTU))
        else n.(peerMtu := mtu, response := n.response + [o])
    else if o.optionType == OPTION_RETRANSMISSION then
      var p := DecodeErtmOption(o.value);
      if p.None? || !AcceptableErtm(enhanced, p.value) then Refuse(n, UNACCEPTABLE, o)
      else n.(ertm := p, response := n.response + [o])
    else if o.optionType == OPTION_FCS then
      if |o.value| != 1 || o.value[0] > 1 then Refuse(n, UNACCEPTABLE, o)
      else n.(fcs := Some(o.value[0] != 0), response := n.response + [o])
    else if !o.hint then Refuse(n, UNKNOWN_OPTION, o)
    else n
  }

  function Negotiate(enhanced: bool, n: Negotiation, options: seq<ConfigurationOption>): Negotiation
    decreases |options|
  {
    if options == [] then n
    else
      var next := Consider(enhanced, n, options[0]);
      if next.result != SUCCESS then next else Negotiate(enhanced, next, options[1..])
  }

  // `unwrap_or(false)`.
  predicate Wanted(o: Option<bool>) { o.Some? && o.value }

  function EngineConfigFor(spec: ChannelSpec, p: PeerErtm): Ertm.Config
    requires spec.Enhanced?
  {
    Ertm.Config(0xFFFF, 0xFFFF, spec.mps, p.mps, p.txWindowSize, p.maxRetransmissions, spec.retransmissionTimeout)
  }

  // The last word on a complete request: the verdict, the answer, and the channel it leaves.
  datatype Verdict = Verdict(result: u16, response: seq<ConfigurationOption>, channel: Channel, engineFailed: bool)

  function Conclude(c: Channel, n: Negotiation): Verdict {
    if c.spec.Enhanced? then
      if n.ertm.None? then Verdict(UNACCEPTABLE, [EnhancedOption(c.spec)], c, false)
      else if Wanted(n.fcs) != c.spec.fcs then Verdict(UNACCEPTABLE, [FcsOption(c.spec.fcs)], c, false)
      else
        var config := EngineConfigFor(c.spec, n.ertm.value);
        var d := c.(peerMps := n.ertm.value.mps, fcsEnabled := c.spec.fcs);
        if !Ertm.ValidConfig(config) then Verdict(n.result, n.response, d, true)
        else Verdict(n.result, n.response, d.(ertm := Some(Ertm.Fresh(config))), false)
    else if n.ertm.Some? || Wanted(n.fcs) then Verdict(UNACCEPTABLE, n.response, c, false)
    else Verdict(n.result, n.response, c, false)
  }

  function Settle(v: Verdict): Verdict {
    if v.result == SUCCESS then v.(channel := v.channel.(peerConfigured := true))
    else v.(channel := v.channel.(state := Closed, connectionResult := Some(v.result)))
  }

  // A refused option, or a request to be continued, leaves the channel's state alone.
  function ConfigureVerdict(c: Channel, flags: u16, options: seq<ConfigurationOption>): Verdict {
    var n := Negotiate(c.spec.Enhanced?, Negotiation(SUCCESS, [], c.peerMtu, None, None), options);
    var d := c.(peerMtu := n.peerMtu);
    if n.result == SUCCESS && flags % 2 == 0 then
      var v := Conclude(d, n);
      if v.engineFailed then v else Settle(v)
    else Verdict(n.result, n.response, d, false)
  }

  function MaybeOpen(m: Manager, cid: u16): Manager {
    if cid !in m.channels then m
    else
      var c := m.channels[cid];
      if c.peerConfigured && c.responseReceived && c.state == Configuring then
        var announce := c.incoming && !c.announced;
        m.(channels := m.channels[cid := c.(state := Open, announced := c.announced || announce)],
           accepted := m.accepted + (if announce then [cid] else []))
      else m
  }

  function OnConfigureRequest(m: Manager, id: byte, cid: u16, flags: u16, encoded: seq<byte>): Outcome {
    var options := DecodeOptions(encoded);
    if options.Failure? then Fail(m, Codec(options.error))
    else if cid !in m.channels then Fail(m, UnknownCid)
    else
      var v := ConfigureVerdict(m.channels[cid], flags, options.value);
      var n := m.(channels := m.channels[cid := v.channel]);
      if v.engineFailed then Fail(n, EngineConfig)
      else
        var response := TryEncodeOptions(v.response);
        if response.Failure? then Fail(n, Codec(response.error))
        else
          Done(MaybeOpen(
                 QueueControl(n, ConfigureResponse(id, m.channels[cid].destinationCid, 0, v.result, response.value)),
                     cid))
  }

  function OnConfigureResponse(m: Manager, cid: u16, result: u16): Outcome {
    if cid !in m.channels then Fail(m, UnknownCid)
    else
      var c := m.channels[cid];
      var d := if result == SUCCESS then c.(responseReceived := true)
               else c.(connectionResult := Some(result), state := Closed);
      Done(MaybeOpen(m.(channels := m.channels[cid := d]), cid))
  }

  // ---------------------------------------------------------------------------
  // Connection and disconnection signaling
  // ---------------------------------------------------------------------------

  function OnConnectionRequest(m: Manager, id: byte, psm: u32, remote: u16): Outcome {
    if psm !in m.servers then Done(QueueControl(m, ConnectionResponse(id, 0, remote, REFUSED_PSM, 0)))
    else
      var cid := FreeCid(m.channels, FIRST_CID);
      if cid.None? then Done(QueueControl(m, ConnectionResponse(id, 0, remote, REFUSED_RESOURCES, 0)))
      else
        var n := Put(m, IncomingChannel(psm, cid.value, remote, m.servers[psm]));
        QueueConfigureRequest(QueueControl(n, ConnectionResponse(id, cid.value, remote, SUCCESS, 0)), cid.value)
  }

  function OnConnectionResponse(m: Manager, destination: u16, cid: u16, result: u16): Outcome {
    if cid !in m.channels then Fail(m, UnknownCid)
    else
      var c := m.channels[cid];
      if c.state != WaitConnectResponse then Fail(m, InvalidState)
      else if result != SUCCESS then
        Done(m.(channels := m.channels[cid := c.(connectionResult := Some(result), state := Closed)]))
      else
        QueueConfigureRequest(
          m.(channels := m.channels[cid := c.(connectionResult := Some(result), destinationCid := destination,
                                              state := Configuring)]),
          cid)
  }

  function OnDisconnectionRequest(m: Manager, id: byte, cid: u16, remote: u16): Outcome {
    if cid !in m.channels then Fail(m, UnknownCid)
    else
      var c := m.channels[cid];
      if c.destinationCid != remote then Fail(m, CidMismatch)
      else
        Done(QueueControl(m.(channels := m.channels[cid := c.(state := Closed)]),
                          DisconnectionResponse(id, cid, remote)))
  }

  function OnDisconnectionResponse(m: Manager, destination: u16, cid: u16): Outcome {
    if cid !in m.channels then Fail(m, UnknownCid)
    else
      var c := m.channels[cid];
      if c.destinationCid != destination then Fail(m, CidMismatch)
      else Done(m.(channels := m.channels[cid := c.(state := Closed)]))
  }

  function Disconnect(m: Manager, cid: u16): Outcome {
    if cid !in m.channels then Fail(m, UnknownCid)
    else
      var c := m.channels[cid];
      if c.state != Open then Fail(m, NotOpen)
      else
        var id := NextIdentifier(m.identifier);
        Done(QueueControl(m.(channels := m.channels[cid := c.(state := WaitDisconnect)], identifier := id),
                          DisconnectionRequest(id, c.destinationCid, cid)))
  }

  // `width` little-endian bytes of `n`.
  function LeBytes(n: nat, width: nat): seq<byte> {
    if width == 0 then [] else [n % 0x100] + LeBytes(n / 0x100, width - 1)
  }

  function Inform(i: Capabilities, id: byte, infoType: u16): ControlFrame {
    if infoType == 1 then InformationResponse(id, infoType, 0, Le16(i.connectionlessMtu))
    else if infoType == 2 then InformationResponse(id, infoType, 0, LeBytes(i.extendedFeatures, 4))
    else if infoType == 3 then InformationResponse(id, infoType, 0, LeBytes(i.fixedChannels, 8))
    else InformationResponse(id, infoType, 1, [])
  }

  function ProcessControl(m: Manager, f: ControlFrame): Outcome {
    match f
    case ConnectionRequest(id, psm, source) => OnConnectionRequest(m, id, psm, source)
    case ConnectionResponse(_, destination, source, result, _) => OnConnectionResponse(m, destination, source, result)
    case ConfigureRequest(id, destination, flags, options) => OnConfigureRequest(m, id, destination, flags, options)
    case ConfigureResponse(_, source, _, result, _) => OnConfigureResponse(m, source, result)
    case DisconnectionRequest(id, destination, source) => OnDisconnectionRequest(m, id, destination, source)
    case DisconnectionResponse(_, destination, source) => OnDisconnectionResponse(m, destination, source)
    case EchoRequest(id, data) => Done(QueueControl(m, EchoResponse(id, data)))
    case InformationRequest(id, infoType) => Done(QueueControl(m, Inform(m.information, id, infoType)))
    case InformationResponse(id, infoType, result, data) =>
      Done(m.(replies := m.replies + [InformationReply(id, infoType, result, data)]))
    case _ => Done(m)
  }

  // ---------------------------------------------------------------------------
  // Data
  // ---------------------------------------------------------------------------

  // Queue engine frames towards the peer, each with its FCS when that is on.
  function QueueFrames(m: Manager, destination: u16, fcs: bool, frames: seq<seq<byte>>): Outcome
    decreases |frames|
  {
    if frames == [] then Done(m)
    else
      var payload := if fcs then Fcs.AppendFcs(destination, frames[0]) else Success(frames[0]);
      if payload.Failure? then Fail(m, Check(payload.error))
      else QueueFrames(m.(outbound := m.outbound + [Pdu(destination, payload.value)]), destination, fcs, frames[1..])
  }

  // `drain_outbound`, with the history of queued tags.
  function Drained(e: Ertm.Engine): Ertm.Engine {
    e.(outbound := [], received := [], history := e.history.(queued := []))
  }

  function FlushErtm(m: Manager, cid: u16): Outcome {
    if cid !in m.channels then Fail(m, UnknownCid)
    else
      var c := m.channels[cid];
      if c.ertm.None? then Fail(m, NotEnhanced)
      else
        var e := c.ertm.value;
        var d := c.(ertm := Some(Drained(e)), received := c.received + e.received);
        QueueFrames(m.(channels := m.channels[cid := d]), c.destinationCid, c.fcsEnabled, e.outbound)
  }

  // An engine operation's new state on its channel, then the flush unless it failed.
  function AfterEngine(m: Manager, cid: u16, step: Ertm.Step): Outcome
    requires cid in m.channels
  {
    var n := m.(channels := m.channels[cid := m.channels[cid].(ertm := Some(step.engine))]);
    if step.error.Some? then Fail(n, Engine(step.error.value)) else FlushErtm(n, cid)
  }

  function ProcessPdu(m: Manager, pdu: Pdu): Outcome {
    if pdu.cid == SIGNALING_CID then
      var f := DecodeFrame(pdu.payload);
      if f.Failure? then Fail(m, Codec(f.error)) else ProcessControl(m, f.value)
    else if pdu.cid !in m.channels then Fail(m, UnknownCid)
    else
      var c := m.channels[pdu.cid];
      if c.state != Open then Fail(m, NotOpen)
      else if c.ertm.Some? then
        var payload := if c.fcsEnabled then Fcs.VerifyAndStripFcs(pdu.cid, pdu.payload) else Success(pdu.payload);
        if payload.Failure? then Fail(m, Check(payload.error))
        else AfterEngine(m, pdu.cid, Ertm.ReceiveFrame(c.ertm.value, payload.value))
      else if |pdu.payload| > c.spec.mtu then Fail(m, SduTooLong)
      else Done(m.(channels := m.channels[pdu.cid := c.(received := c.received + [pdu.payload])]))
  }

  // A manager's engines all have valid configurations.
  predicate EnginesValid(m: Manager) {
    forall cid <- m.channels :: m.channels[cid].ertm.Some? ==> Ertm.ValidConfig(m.channels[cid].ertm.value.config)
  }

  function Send(m: Manager, cid: u16, sdu: seq<byte>): Outcome
    requires EnginesValid(m)
  {
    if cid !in m.channels then Fail(m, UnknownCid)
    else
      var c := m.channels[cid];
      if c.state != Open then Fail(m, NotOpen)
      else if c.ertm.Some? then AfterEngine(m, cid, Ertm.SendSdu(c.ertm.value, sdu))
      else if |sdu| > c.peerMtu then Fail(m, SduTooLong)
      else Done(m.(outbound := m.outbound + [Pdu(c.destinationCid, sdu)]))
  }

  function SetReceiverBusy(m: Manager, cid: u16, busy: bool): Outcome {
    if cid !in m.channels then Fail(m, UnknownCid)
    else
      var c := m.channels[cid];
      if c.ertm.None? then Fail(m, NotEnhanced)
      else AfterEngine(m, cid, Ertm.SetReceiverBusy(c.ertm.value, busy))
  }

  // The clock of every enhanced channel from `cid` on, in CID order, until one fails.
  function Tick(m: Manager, cid: nat, ticks: u32): Outcome
    requires cid <= 0x1_0000
    decreases 0x1_0000 - cid
  {
    if cid > 0xFFFF then Done(m)
    else if cid in m.channels && m.channels[cid].ertm.Some? then
      var r := AfterEngine(m, cid, Ertm.Tick(m.channels[cid].ertm.value, ticks));
      if r.error.Some? then r else Tick(r.manager, cid + 1, ticks)
    else Tick(m, cid + 1, ticks)
  }

  function RequestInformation(m: Manager, infoType: u16): Manager {
    var id := NextIdentifier(m.identifier);
    QueueControl(m.(identifier := id), InformationRequest(id, infoType))
  }

  function PollOutbound(m: Manager): Manager {
    if m.outbound == [] then m else m.(outbound := m.outbound[1..])
  }

  function PollAccepted(m: Manager): Manager {
    if m.accepted == [] then m else m.(accepted := m.accepted[1..])
  }

  function PopReceived(m: Manager, cid: u16): Manager {
    if cid !in m.channels || m.channels[cid].received == [] then m
    else m.(channels := m.channels[cid := m.channels[cid].(received := m.channels[cid].received[1..])])
  }
}
