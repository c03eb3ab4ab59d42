/**
  * The Classic host: one connection, its channel manager, the ACL assembler and the
  * credit flow between the manager and the controller.
  */
module Host {
  import opened Bytes
  import Signaling
  import Channels
  import Hci
  import AclFlow

  type Address = a: seq<byte> | |a| == 6 witness [0, 0, 0, 0, 0, 0]

  datatype Bond = Bond(linkKey: seq<byte>, linkKeyType: byte, authenticated: bool)

  datatype ClassicEvent =
    | ConnectionRequest(peer: Address)
    | ConnectionComplete(status: byte, handle: u16, peer: Address)
    | LinkKeyRequest(peer: Address)
    | LinkKeyNotification(peer: Address, linkKey: seq<byte>, linkKeyType: byte)
    | IoCapabilityRequest(peer: Address)
    | UserConfirmationRequest(peer: Address)
    | AuthenticationComplete(status: byte, handle: u16)
    | EncryptionChange(status: byte, handle: u16, enabled: bool)
    | NumberOfCompletedPackets(handle: u16, completed: u16)
    | DisconnectionComplete(handle: u16, reason: byte)

  datatype SessionEvent =
    | Connected(peer: Address, handle: u16)
    | BondStored(peer: Address)
    | Encrypted(peer: Address)
    | ChannelOpened(psm: u32, cid: u16)
    | Disconnected(peer: Address, reason: byte)

  datatype HostOutput = CommandOut(opcode: u16, parameters: seq<byte>) | AclOut(packet: Hci.AclPacket)
      | EventOut(event: SessionEvent)

  datatype HostError =
    | Codec(hci: Hci.HciError)
    | Pdu(codec: Signaling.CodecError)
    | L2cap(l2cap: Channels.Error)
    | NoConnection
    | HandleMismatch(expected: u16, actual: u16)
    | PeerMismatch(wanted: Address, found: Address)
    | Credits(flow: AclFlow.FlowError)

  datatype Connection = Connection(peer: Address, handle: u16, encrypted: bool, channels: Channels.Manager)

  datatype Host = Host(
    bonds: map<Address, Bond>,
    connection: Option<Connection>,
    pendingPeer: Option<Address>,
    servers: map<u32, Channels.ChannelSpec>,
    pending: map<u16, Hci.Pending>,
    flow: AclFlow.Flow,
    output: seq<HostOutput>)

  datatype Outcome = Outcome(host: Host, error: Option<HostError>)

  const DEFAULT_CAPABILITIES := Channels.Capabilities(1024, 0, 0x2)

  function Fresh(bonds: map<Address, Bond>, payloadSize: nat, total: u16): Host {
    Host(bonds, None, None, map[], map[], AclFlow.Fresh(payloadSize, total), [])
  }

  predicate ValidHost(h: Host) {
    && AclFlow.Valid(h.flow) && Hci.ValidAssembler(h.pending)
    && (h.connection.Some? ==> Channels.EnginesValid(h.connection.value.channels))
  }

  function Done(h: Host): Outcome { Outcome(h, None) }

  function Fail(h: Host, e: HostError): Outcome { Outcome(h, Some(e)) }

  function Put(h: Host, more: seq<HostOutput>): Host { h.(output := h.output + more) }

  // ---------------------------------------------------------------------------
  // Events
  // ---------------------------------------------------------------------------

  predicate ValidServers(servers: map<u32, Channels.ChannelSpec>) {
    forall psm <- servers :: Signaling.ValidPsm(psm) && servers[psm].Basic? && Channels.ValidSpec(servers[psm])
  }

  function RegisterServer(h: Host, psm: u32, spec: Channels.ChannelSpec): Outcome {
    if h.connection.None? then Done(h.(servers := h.servers[psm := spec]))
    else
      var (m, r) := Channels.RegisterServer(h.connection.value.channels, Some(psm), spec);
      if r.Failure? then Fail(h, L2cap(r.error))
      else Done(h.(connection := Some(h.connection.value.(channels := m)), servers := h.servers[psm := spec]))
  }

  // A new connection serves every registered PSM, or is not made.
  function OnConnected(h: Host, handle: u16, peer: Address): Outcome {
    if h.pendingPeer.Some? && h.pendingPeer.value != peer then Fail(h, PeerMismatch(h.pendingPeer.value, peer))
    else if !ValidServers(h.servers) then Fail(h, L2cap(Channels.InvalidPsm))
    else
      var channels := Channels.New(DEFAULT_CAPABILITIES).(servers := h.servers);
      Done(Put(h.(pendingPeer := None, connection := Some(Connection(peer, handle, false, channels))),
               [EventOut(Connected(peer, handle)), CommandOut(0x0411, Le16(handle))]))
  }

  function CheckHandle(h: Host, handle: u16): Option<HostError> {
    if h.connection.None? then Some(NoConnection)
    else if h.connection.value.handle != handle then Some(HandleMismatch(h.connection.value.handle, handle))
    else None
  }

  function WithoutAcl(output: seq<HostOutput>, handle: u16): seq<HostOutput> {
    if output == [] then []
    else
      (if output[0].AclOut? && output[0].packet.handle == handle then [] else [output[0]])
      + WithoutAcl(output[1..], handle)
  }

  function OnDisconnected(h: Host, handle: u16, reason: byte): Outcome {
    var mismatch := CheckHandle(h, handle);
    if mismatch.Some? then Fail(h, mismatch.value)
    else
      Done(h.(flow := AclFlow.ClearHandle(h.flow, handle),
              pending := h.pending - {handle},
              connection := None,
              output := WithoutAcl(h.output, handle) + [EventOut(Disconnected(h.connection.value.peer, reason))]))
  }

  function AclOuts(packets: seq<Hci.AclPacket>): seq<HostOutput> {
    seq(|packets|, i requires 0 <= i < |packets| => AclOut(packets[i]))
  }

  function FlushFlow(h: Host): Host
    requires AclFlow.Valid(h.flow)
  {
    Put(h.(flow := AclFlow.Flush(h.flow).0), AclOuts(AclFlow.Flush(h.flow).1))
  }

  function OnCompleted(h: Host, handle: u16, completed: u16): Outcome
    requires AclFlow.Valid(h.flow)
  {
    var r := AclFlow.Complete(h.flow, handle, completed);
    if r.Failure? then Fail(h, Credits(r.error))
    else
      AclFlow.CompleteKeeps(h.flow, handle, completed);
      Done(FlushFlow(h.(flow := r.value)))
  }

  function HandleEvent(h: Host, e: ClassicEvent): Outcome
    requires AclFlow.Valid(h.flow)
  {
    match e
    case ConnectionRequest(peer) => Done(Put(h.(pendingPeer := Some(peer)), [CommandOut(0x0409, peer + [1])]))
    case ConnectionComplete(status, handle, peer) =>
      if status == 0 then OnConnected(h, handle, peer) else Done(h.(pendingPeer := None))
    case LinkKeyRequest(peer) =>
      if peer in h.bonds then Done(Put(h, [CommandOut(0x040B, peer + h.bonds[peer].linkKey)]))
      else Done(Put(h, [CommandOut(0x040C, peer)]))
    case LinkKeyNotification(peer, key, keyType) =>
      Done(Put(h.(bonds := h.bonds[peer := Bond(key, keyType, keyType == 0x05 || keyType == 0x08)]),
               [EventOut(BondStored(peer))]))
    case IoCapabilityRequest(peer) => Done(Put(h, [CommandOut(0x042B, peer + [3, 0, 2])]))
    case UserConfirmationRequest(peer) => Done(Put(h, [CommandOut(0x042C, peer)]))
    case AuthenticationComplete(status, handle) =>
      if status != 0 then Done(h)
      else
        var mismatch := CheckHandle(h, handle);
        if mismatch.Some? then Fail(h, mismatch.value) else Done(Put(h, [CommandOut(0x0413, Le16(handle) + [1])]))
    case EncryptionChange(status, handle, enabled) =>
      if status != 0 || !enabled then Done(h)
      else
        var mismatch := CheckHandle(h, handle);
        if mismatch.Some? then Fail(h, mismatch.value)
        else
          var c := h.connection.value;
          Done(Put(h.(connection := Some(c.(encrypted := true))), [EventOut(Encrypted(c.peer))]))
    case NumberOfCompletedPackets(handle, completed) => OnCompleted(h, handle, completed)
    case DisconnectionComplete(handle, reason) => OnDisconnected(h, handle, reason)
  }

  // ---------------------------------------------------------------------------
  // Data
  // ---------------------------------------------------------------------------

  // The packets for these PDUs, up to the first that cannot be cut.
  function FragmentAll(handle: u16, size: nat, pdus: seq<Signaling.Pdu>): (seq<Hci.AclPacket>, Option<Hci.HciError>)
    decreases |pdus|
  {
    if pdus == [] then ([], None)
    else
      var first := Hci.FragmentPdu(handle, 0, size, Signaling.EncodePdu(pdus[0]), false);
      if first.Failure? then ([], Some(first.error))
      else
        var (rest, error) := FragmentAll(handle, size, pdus[1..]);
        (first.value + rest, error)
  }

  function OpenedEvents(m: Channels.Manager, cids: seq<u16>): seq<HostOutput> {
    if cids == [] then []
    else
      (if cids[0] in m.channels then [EventOut(ChannelOpened(m.channels[cids[0]].psm, cids[0]))] else [])
      + OpenedEvents(m, cids[1..])
  }

  function FlushChannels(h: Host): Outcome
    requires AclFlow.Valid(h.flow)
  {
    if h.connection.None? then Fail(h, NoConnection)
    else
      var c := h.connection.value;
      var announcements := OpenedEvents(c.channels, c.channels.accepted);
      var (packets, error) := FragmentAll(c.handle, h.flow.payloadSize, c.channels.outbound);
      var g := h.(connection := Some(c.(channels := c.channels.(outbound := [], accepted := []))),
                  flow := AclFlow.Enqueue(h.flow, packets));
      if error.Some? then Fail(g, Codec(error.value)) else Done(Put(FlushFlow(g), announcements))
  }

  function WithChannels(h: Host, m: Channels.Manager): Host
    requires h.connection.Some?
  {
    h.(connection := Some(h.connection.value.(channels := m)))
  }

  function ProcessAcl(h: Host, p: Hci.AclPacket): Outcome
    requires AclFlow.Valid(h.flow)
  {
    var mismatch := CheckHandle(h, p.handle);
    if mismatch.Some? then Fail(h, mismatch.value)
    else
      var (pending, reply) := Hci.FeedPacket(h.pending, p);
      var fed := h.(pending := pending);
      if reply.Failure? then Fail(fed, Codec(reply.error))
      else if reply.value.None? then Done(fed)
      else
        var pdu := Signaling.DecodePdu(reply.value.value);
        if pdu.Failure? then Fail(fed, Pdu(pdu.error))
        else
          var r := Channels.ProcessPdu(h.connection.value.channels, pdu.value);
          if r.error.Some? then Fail(WithChannels(fed, r.manager), L2cap(r.error.value))
          else FlushChannels(WithChannels(fed, r.manager))
  }

  function SendChannelSdu(h: Host, cid: u16, sdu: seq<byte>): Outcome
    requires ValidHost(h)
  {
    if h.connection.None? then Fail(h, NoConnection)
    else
      var r := Channels.Send(h.connection.value.channels, cid, sdu);
      if r.error.Some? then Fail(WithChannels(h, r.manager), L2cap(r.error.value))
      else FlushChannels(WithChannels(h, r.manager))
  }

  function ConnectChannel(h: Host, psm: u32, spec: Channels.ChannelSpec): Outcome
    requires AclFlow.Valid(h.flow)
  {
    if h.connection.None? then Fail(h, NoConnection)
    else
      var (m, r) := Channels.Connect(h.connection.value.channels, psm, spec);
      if r.Failure? then Fail(h, L2cap(r.error)) else FlushChannels(WithChannels(h, m))
  }

  // The CID a call to ConnectChannel gives the new channel.
  function ConnectedCid(h: Host, psm: u32, spec: Channels.ChannelSpec): Option<u16> {
    if h.connection.None? then None
    else
      var r := Channels.Connect(h.connection.value.channels, psm, spec).1;
      if r.Failure? then None else Some(r.value)
  }

  function TakeChannelSdu(h: Host, cid: u16): Host {
    if h.connection.None? then h else WithChannels(h, Channels.PopReceived(h.connection.value.channels, cid))
  }

  function PopOutput(h: Host): Host { if h.output == [] then h else h.(output := h.output[1..]) }

  // ---------------------------------------------------------------------------
  // Disconnection
  // ---------------------------------------------------------------------------

  lemma {:induction false} WithoutAclRemoves(output: seq<HostOutput>, handle: u16)
    ensures forall i :: 0 <= i < |WithoutAcl(output, handle)| ==>
              !(WithoutAcl(output, handle)[i].AclOut? && WithoutAcl(output, handle)[i].packet.handle == handle)
  {
    if output != [] { WithoutAclRemoves(output[1..], handle); }
  }

  // No packet of the handle is queued, with the controller, in the output or partially reassembled.
  predicate NoTrace(h: Host, handle: u16) {
    && AclFlow.Number(h.flow.queued, handle) == 0 && AclFlow.Count(h.flow.inFlight, handle) == 0
    && handle !in h.pending
    && forall i :: 0 <= i < |h.output| ==> !(h.output[i].AclOut? && h.output[i].packet.handle == handle)
  }

  /** A processed disconnection leaves nothing of its handle behind, and only names the connection's own handle. */
  lemma DisconnectionLeavesNothing(h: Host, handle: u16, reason: byte)
    requires AclFlow.Valid(h.flow)
    ensures var r := HandleEvent(h, DisconnectionComplete(handle, reason));
            && (r.error.None? <==> h.connection.Some? && h.connection.value.handle == handle)
            && (r.error.None? ==> r.host.connection.None? && NoTrace(r.host, handle))
            && (r.error.Some? ==> r.host == h)
  {
    AclFlow.ClearKeeps(h.flow, handle);
    WithoutAclRemoves(h.output, handle);
  }
}
