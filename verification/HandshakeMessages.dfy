/**
  * What basic-mode managers say to each other: the meaning of a queued PDU, and the
  * effect of each message on the manager that processes it.
  */
module HandshakeMessages {
  import opened Bytes
  import opened Signaling
  import opened Channels

  // The meaning of a PDU, without identifiers and encodings.
  datatype Message =
    | Request(psm: u32, source: u16)
    | Response(destination: u16, source: u16, result: u16)
    | Propose(destination: u16, mtu: u16)
    | Agree(source: u16)
    | Data(cid: u16, sdu: seq<byte>)
    | Inquiry
    | Garbage

  function Meaning(f: ControlFrame): Message {
    match f
    case ConnectionRequest(_, psm, source) => Request(psm, source)
    case ConnectionResponse(_, destination, source, result, _) => Response(destination, source, result)
    case ConfigureRequest(_, destination, flags, encoded) =>
      var options := DecodeOptions(encoded);
      if flags == 0 && options.Success? && |options.value| == 1 && |options.value[0].value| == 2
         && options.value[0] == MtuOption(Le16At(options.value[0].value, 0))
      then Propose(destination, Le16At(options.value[0].value, 0))
      else Garbage
    case ConfigureResponse(_, source, _, result, _) => if result == SUCCESS then Agree(source) else Garbage
    case InformationRequest(_, _) => Inquiry
    case InformationResponse(_, _, _, _) => Inquiry
    case _ => Garbage
  }

  function Read(pdu: Pdu): Message {
    if pdu.cid != SIGNALING_CID then Data(pdu.cid, pdu.payload)
    else
      var f := DecodeFrame(pdu.payload);
      if f.Failure? then Garbage else Meaning(f.value)
  }

  function Messages(queue: seq<Pdu>): (r: seq<Message>)
    ensures |r| == |queue|
  {
    seq(|queue|, i requires 0 <= i < |queue| => Read(queue[i]))
  }

  lemma MessagesAppend(queue: seq<Pdu>, p: Pdu)
    ensures Messages(queue + [p]) == Messages(queue) + [Read(p)]
  {
  }

  lemma MessagesTail(queue: seq<Pdu>)
    requires queue != []
    ensures Messages(queue) == [Read(queue[0])] + Messages(queue[1..])
  {
  }

  // A manager that only does basic mode.
  predicate BasicChannel(c: Channel) { c.spec.Basic? && c.ertm.None? }

  predicate BasicManager(m: Manager) {
    && (forall cid <- m.channels :: BasicChannel(m.channels[cid]))
    && (forall psm <- m.servers :: m.servers[psm].Basic? && ValidSpec(m.servers[psm]))
  }

  // Every payload's length can be written in a PDU header.
  predicate Fits(queue: seq<Pdu>) { forall i :: 0 <= i < |queue| ==> |queue[i].payload| <= 0xFFFF }

  // The manager `n` is `m` with other channels and with these messages queued.
  predicate Effect(m: Manager, n: Manager, channels: map<u16, Channel>, queued: seq<Message>) {
    && n.channels == channels && n.servers == m.servers && Messages(n.outbound) == Messages(m.outbound) + queued
    && (Fits(m.outbound) ==> Fits(n.outbound))
  }

  // A frame that fits a PDU with room to spare.
  predicate Short(f: ControlFrame) {
    |Payload(f)| <= 0x100 && !f.Generic? && (f.ConnectionRequest? ==> f.psm <= 0xFFFF)
  }

  // ---------------------------------------------------------------------------
  // Queueing
  // ---------------------------------------------------------------------------

  lemma QueueEffect(m: Manager, f: ControlFrame)
    requires Short(f) && (f.ConnectionRequest? ==> ValidPsm(f.psm))
    ensures Effect(m, QueueControl(m, f), m.channels, [Meaning(f)])
  {
    hide DecodeFrame, Meaning, ValidPsm, Payload, Code;
    SignalingRoundTrip(f);
    MessagesAppend(m.outbound, Pdu(SIGNALING_CID, EncodeFrame(f)));
  }

  lemma ProposalReads(spec: ChannelSpec, id: byte, destination: u16)
    requires spec.Basic?
    ensures TryEncodeOptions(Proposal(spec)).Success?
    ensures var f := ConfigureRequest(id, destination, 0, TryEncodeOptions(Proposal(spec)).value);
            Meaning(f) == Propose(destination, spec.mtu) && Short(f)
  {
    var options := Proposal(spec);
    assert options == [MtuOption(spec.mtu)] + [];
    OptionsRoundTrip(options);
    assert Le16At(MtuOption(spec.mtu).value, 0) == spec.mtu;
    assert EncodeOptions(options) == EncodeOption(options[0]) + EncodeOptions(options[1..]);
    assert |EncodeOptions(options)| == 4;
    assert |Words([destination, 0])| == 4 by { WordsLength([destination, 0]); }
  }

  lemma QueueConfigureEffect(m: Manager, cid: u16)
    requires cid in m.channels && BasicChannel(m.channels[cid])
    ensures var r := QueueConfigureRequest(m, cid);
            r.error.None?
            && Effect(m, r.manager, m.channels, [Propose(m.channels[cid].destinationCid, m.channels[cid].spec.mtu)])
  {
    hide EncodeFrame, Proposal, TryEncodeOptions, EncodeOptions, Meaning, Short, Messages;
    var c, id := m.channels[cid], NextIdentifier(m.identifier);
    ProposalReads(c.spec, id, c.destinationCid);
    QueueEffect(m.(identifier := id),
                ConfigureRequest(id, c.destinationCid, 0, TryEncodeOptions(Proposal(c.spec)).value));
  }

  lemma EffectTwice(m: Manager, n: Manager, o: Manager, channels: map<u16, Channel>, first: seq<Message>,
                    second: seq<Message>)
    requires Effect(m, n, channels, first) && Effect(n, o, channels, second)
    ensures Effect(m, o, channels, first + second)
  {
    assert Messages(m.outbound) + first + second == Messages(m.outbound) + (first + second);
  }

  // ---------------------------------------------------------------------------
  // Calls
  // ---------------------------------------------------------------------------

  lemma ConnectEffect(m: Manager, psm: u32, spec: ChannelSpec)
    requires spec.Basic? && psm <= 0xFFFF
    ensures var (n, r) := Connect(m, psm, spec);
            if r.Failure? then n == m
            else
              && r.value >= FIRST_CID && r.value !in m.channels && ValidSpec(spec)
              && Effect(m, n, m.channels[r.value := OutgoingChannel(psm, r.value, spec)], [Request(psm, r.value)])
  {
    hide EncodeFrame, Meaning, FreeCid, ValidPsm, Messages;
    var (n, r) := Connect(m, psm, spec);
    if r.Success? {
      var id := NextIdentifier(m.identifier);
      var f := ConnectionRequest(id, psm, r.value);
      RequestReads(f);
      QueueEffect(Put(m.(identifier := id), OutgoingChannel(psm, r.value, spec)), f);
    }
  }

  lemma RequestReads(f: ControlFrame)
    requires f.ConnectionRequest? && ValidPsm(f.psm) && f.psm <= 0xFFFF
    ensures Short(f) && Meaning(f) == Request(f.psm, f.sourceCid)
  {
    ConnectionRequestDecodes(f);
  }

  lemma SendEffect(m: Manager, cid: u16, sdu: seq<byte>)
    requires BasicManager(m) && EnginesValid(m)
    requires forall c <- m.channels :: m.channels[c].state == Open ==> m.channels[c].destinationCid >= FIRST_CID
    ensures var r := Send(m, cid, sdu);
            if r.error.Some? then r.manager == m
            else
              && cid in m.channels && m.channels[cid].state == Open && |sdu| <= m.channels[cid].peerMtu
              && Effect(m, r.manager, m.channels, [Data(m.channels[cid].destinationCid, sdu)])
  {
    hide AfterEngine;
    if Send(m, cid, sdu).error.None? {
      MessagesAppend(m.outbound, Pdu(m.channels[cid].destinationCid, sdu));
    }
  }

  lemma LeBytesLength(n: nat, width: nat)
    ensures |LeBytes(n, width)| == width
  {
  }

  lemma InformReads(i: Capabilities, id: byte, infoType: u16)
    ensures Short(Inform(i, id, infoType)) && Meaning(Inform(i, id, infoType)) == Inquiry
  {
    LeBytesLength(i.extendedFeatures, 4);
    LeBytesLength(i.fixedChannels, 8);
    WordsLength(Fields(Inform(i, id, infoType)));
  }

  lemma InquireEffect(m: Manager, infoType: u16)
    ensures Effect(m, RequestInformation(m, infoType), m.channels, [Inquiry])
  {
    var id := NextIdentifier(m.identifier);
    WordsLength([infoType]);
    QueueEffect(m.(identifier := id), InformationRequest(id, infoType));
  }

  // ---------------------------------------------------------------------------
  // Deliveries
  // ---------------------------------------------------------------------------

  lemma ResponseReads(id: byte, destination: u16, source: u16, result: u16)
    ensures var f := ConnectionResponse(id, destination, source, result, 0);
            Short(f) && Meaning(f) == Response(destination, source, result)
  {
    WordsLength([destination, source, result, 0]);
  }

  lemma RequestEffect(m: Manager, pdu: Pdu)
    requires BasicManager(m) && Read(pdu).Request?
    ensures var r, psm, x := ProcessPdu(m, pdu), Read(pdu).psm, Read(pdu).source;
            var y := FreeCid(m.channels, FIRST_CID);
            && r.error.None?
            && (psm in m.servers && y.Some? ==>
                  Effect(m, r.manager, m.channels[y.value := IncomingChannel(psm, y.value, x, m.servers[psm])],
                         [Response(y.value, x, SUCCESS), Propose(x, m.servers[psm].mtu)]))
            && (psm in m.servers && y.None? ==> Effect(m, r.manager, m.channels, [Response(0, x, REFUSED_RESOURCES)]))
            && (psm !in m.servers ==> Effect(m, r.manager, m.channels, [Response(0, x, REFUSED_PSM)]))
  {
    hide EncodeFrame, DecodeFrame, FreeCid, QueueConfigureRequest, Messages, DecodeOptions, Short;
    var f := DecodeFrame(pdu.payload).value;
    var id, psm, x := f.identifier, f.psm, f.sourceCid;
    var y := FreeCid(m.channels, FIRST_CID);
    if psm !in m.servers {
      ResponseReads(id, 0, x, REFUSED_PSM);
      QueueEffect(m, ConnectionResponse(id, 0, x, REFUSED_PSM, 0));
    } else if y.None? {
      ResponseReads(id, 0, x, REFUSED_RESOURCES);
      QueueEffect(m, ConnectionResponse(id, 0, x, REFUSED_RESOURCES, 0));
    } else {
      AcceptEffect(m, id, psm, x, y.value);
    }
  }

  lemma AcceptEffect(m: Manager, id: byte, psm: u32, x: u16, y: u16)
    requires BasicManager(m) && psm in m.servers
    ensures var c := IncomingChannel(psm, y, x, m.servers[psm]);
            var r := QueueConfigureRequest(QueueControl(Put(m, c), ConnectionResponse(id, y, x, SUCCESS, 0)), y);
            && r.error.None?
            && Effect(m, r.manager, m.channels[y := c], [Response(y, x, SUCCESS), Propose(x, c.spec.mtu)])
  {
    hide EncodeFrame, QueueConfigureRequest, Messages, Short, Meaning;
    var c := IncomingChannel(psm, y, x, m.servers[psm]);
    var f := ConnectionResponse(id, y, x, SUCCESS, 0);
    ResponseReads(id, y, x, SUCCESS);
    QueueEffect(Put(m, c), f);
    var n := QueueControl(Put(m, c), f);
    QueueConfigureEffect(n, y);
    EffectTwice(Put(m, c), n, QueueConfigureRequest(n, y).manager, m.channels[y := c],
                [Response(y, x, SUCCESS)], [Propose(x, c.spec.mtu)]);
    assert [Response(y, x, SUCCESS)] + [Propose(x, c.spec.mtu)] == [Response(y, x, SUCCESS), Propose(x, c.spec.mtu)];
  }

  // What a connection response makes of its channel.
  function Answered(c: Channel, destination: u16, result: u16): Channel {
    if result != SUCCESS then c.(connectionResult := Some(result), state := Closed)
    else c.(connectionResult := Some(result), destinationCid := destination, state := Configuring)
  }

  lemma ResponseEffect(m: Manager, pdu: Pdu)
    requires Read(pdu).Response? && Read(pdu).source in m.channels
    requires BasicChannel(m.channels[Read(pdu).source]) && m.channels[Read(pdu).source].state == WaitConnectResponse
    ensures var r, y, x, result := ProcessPdu(m, pdu), Read(pdu).destination, Read(pdu).source, Read(pdu).result;
            && r.error.None?
            && Effect(m, r.manager, m.channels[x := Answered(m.channels[x], y, result)],
                      if result == SUCCESS then [Propose(y, m.channels[x].spec.mtu)] else [])
  {
    hide DecodeFrame, QueueConfigureRequest, DecodeOptions;
    var y, x, result := Read(pdu).destination, Read(pdu).source, Read(pdu).result;
    var n := m.(channels := m.channels[x := Answered(m.channels[x], y, result)]);
    if result == SUCCESS { QueueConfigureEffect(n, x); }
  }

  // The channel after `maybe_open`.
  function Opened(c: Channel): Channel {
    if c.peerConfigured && c.responseReceived && c.state == Configuring
    then c.(state := Open, announced := c.announced || c.incoming)
    else c
  }

  lemma MaybeOpenEffect(m: Manager, cid: u16)
    requires cid in m.channels
    ensures Effect(m, MaybeOpen(m, cid), m.channels[cid := Opened(m.channels[cid])], [])
  {
    assert m.channels == m.channels[cid := m.channels[cid]];
  }

  lemma ProposalAccepted(c: Channel, mtu: u16)
    requires BasicChannel(c) && mtu >= MIN_MTU
    ensures ConfigureVerdict(c, 0, [MtuOption(mtu)])
         == Verdict(SUCCESS, [MtuOption(mtu)], c.(peerMtu := mtu, peerConfigured := true), false)
  {
    var o := MtuOption(mtu);
    var n := Negotiation(SUCCESS, [], c.peerMtu, None, None);
    assert Le16At(o.value, 0) == mtu;
    var next := Consider(false, n, o);
    assert next == n.(peerMtu := mtu, response := [] + [o]);
    assert [o][1..] == [] && Negotiate(false, next, []) == next;
    assert Negotiate(false, n, [o]) == next;
  }

  lemma AgreementReads(id: byte, source: u16, mtu: u16)
    ensures TryEncodeOptions([MtuOption(mtu)]).Success?
    ensures var f := ConfigureResponse(id, source, 0, SUCCESS, TryEncodeOptions([MtuOption(mtu)]).value);
            Short(f) && Meaning(f) == Agree(source)
  {
    var options := [MtuOption(mtu)];
    assert EncodeOptions(options) == EncodeOption(options[0]) + EncodeOptions(options[1..]);
    assert |EncodeOptions(options)| == 4;
    WordsLength([source, 0, SUCCESS]);
  }

  lemma ProposeEffect(m: Manager, pdu: Pdu)
    requires Read(pdu).Propose? && Read(pdu).destination in m.channels
    requires BasicChannel(m.channels[Read(pdu).destination]) && Read(pdu).mtu >= MIN_MTU
    ensures var r, cid, mtu := ProcessPdu(m, pdu), Read(pdu).destination, Read(pdu).mtu;
            var c := m.channels[cid];
            && r.error.None?
            && Effect(m, r.manager, m.channels[cid := Opened(c.(peerMtu := mtu, peerConfigured := true))],
                      [Agree(c.destinationCid)])
  {
    var cid, mtu := Read(pdu).destination, Read(pdu).mtu;
    var f := DecodeFrame(pdu.payload).value;
    var options := DecodeOptions(f.options).value;
    assert options == [MtuOption(mtu)];
    ConfigureEffect(m, f.identifier, cid, mtu, f.options);
  }

  lemma ConfigureEffect(m: Manager, id: byte, cid: u16, mtu: u16, encoded: seq<byte>)
    requires cid in m.channels && BasicChannel(m.channels[cid]) && mtu >= MIN_MTU
    requires DecodeOptions(encoded) == Success([MtuOption(mtu)])
    ensures var r, c := OnConfigureRequest(m, id, cid, 0, encoded), m.channels[cid];
            && r.error.None?
            && Effect(m, r.manager, m.channels[cid := Opened(c.(peerMtu := mtu, peerConfigured := true))],
                      [Agree(c.destinationCid)])
  {
    hide EncodeFrame, DecodeFrame, TryEncodeOptions, ConfigureVerdict, MaybeOpen, Meaning, Short, Messages,
         DecodeOptions, Opened;
    var c := m.channels[cid];
    var d := c.(peerMtu := mtu, peerConfigured := true);
    ProposalAccepted(c, mtu);
    AgreementReads(id, c.destinationCid, mtu);
    var n := m.(channels := m.channels[cid := d]);
    var f := ConfigureResponse(id, c.destinationCid, 0, SUCCESS, TryEncodeOptions([MtuOption(mtu)]).value);
    QueueEffect(n, f);
    var q := QueueControl(n, f);
    MaybeOpenEffect(q, cid);
    assert n.channels[cid := Opened(d)] == m.channels[cid := Opened(d)];
    assert Messages(m.outbound) + [Agree(c.destinationCid)] + [] == Messages(m.outbound) + [Agree(c.destinationCid)];
  }

  lemma AgreeEffect(m: Manager, pdu: Pdu)
    requires Read(pdu).Agree? && Read(pdu).source in m.channels
    ensures var r, cid := ProcessPdu(m, pdu), Read(pdu).source;
            && r.error.None?
            && Effect(m, r.manager, m.channels[cid := Opened(m.channels[cid].(responseReceived := true))], [])
  {
    hide DecodeFrame, MaybeOpen, Messages, DecodeOptions;
    var cid := Read(pdu).source;
    var n := m.(channels := m.channels[cid := m.channels[cid].(responseReceived := true)]);
    MaybeOpenEffect(n, cid);
    assert n.channels[cid := Opened(n.channels[cid])] == m.channels[cid := Opened(n.channels[cid])];
  }

  lemma DataEffect(m: Manager, pdu: Pdu)
    requires Read(pdu).Data? && pdu.cid in m.channels && m.channels[pdu.cid].state == Open
    requires BasicChannel(m.channels[pdu.cid]) && |pdu.payload| <= m.channels[pdu.cid].spec.mtu
    ensures pdu.cid != SIGNALING_CID
    ensures var r, c := ProcessPdu(m, pdu), m.channels[pdu.cid];
            && r.error.None?
            && Effect(m, r.manager, m.channels[pdu.cid := c.(received := c.received + [pdu.payload])], [])
  {
    hide DecodeFrame, DecodeOptions;
  }

  lemma InquiryEffect(m: Manager, pdu: Pdu)
    requires Read(pdu).Inquiry?
    ensures var r := ProcessPdu(m, pdu);
            r.error.None? && (Effect(m, r.manager, m.channels, []) || Effect(m, r.manager, m.channels, [Inquiry]))
  {
    hide DecodeFrame, EncodeFrame, Inform, Messages, DecodeOptions;
    var f := DecodeFrame(pdu.payload).value;
    if f.InformationRequest? {
      InformReads(m.information, f.identifier, f.infoType);
      QueueEffect(m, Inform(m.information, f.identifier, f.infoType));
    } else {
      assert Messages(m.outbound) + [] == Messages(m.outbound);
    }
  }
}
