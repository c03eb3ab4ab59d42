/** A manager only ever adds to the end of its outbound queue, and never looks at it. */
module ChannelQueue {
  import opened Bytes
  import opened Signaling
  import opened Channels
  import Ertm
  import Fcs

  // The manager with these PDUs queued before its own.
  function Behind(queue: seq<Pdu>, m: Manager): Manager { m.(outbound := queue + m.outbound) }

  predicate SameBehind(queue: seq<Pdu>, r: Outcome, s: Outcome) { s == Outcome(Behind(queue, r.manager), r.error) }

  lemma QueueControlBehind(q: seq<Pdu>, m: Manager, f: ControlFrame)
    ensures QueueControl(Behind(q, m), f) == Behind(q, QueueControl(m, f))
  {
    hide EncodeFrame;
    var p := Pdu(SIGNALING_CID, EncodeFrame(f));
    assert q + m.outbound + [p] == q + (m.outbound + [p]);
  }

  lemma QueueConfigureBehind(q: seq<Pdu>, m: Manager, cid: u16)
    ensures SameBehind(q, QueueConfigureRequest(m, cid), QueueConfigureRequest(Behind(q, m), cid))
  {
    hide QueueControl, TryEncodeOptions, Proposal;
    if cid in m.channels {
      var c, id := m.channels[cid], NextIdentifier(m.identifier);
      var encoded := TryEncodeOptions(Proposal(c.spec));
      if encoded.Success? {
        QueueControlBehind(q, m.(identifier := id), ConfigureRequest(id, c.destinationCid, 0, encoded.value));
      }
    }
  }

  lemma ConfigureBehind(q: seq<Pdu>, m: Manager, id: byte, cid: u16, flags: u16, encoded: seq<byte>)
    ensures SameBehind(q, OnConfigureRequest(m, id, cid, flags, encoded),
                       OnConfigureRequest(Behind(q, m), id, cid, flags, encoded))
  {
    hide QueueControl, TryEncodeOptions, ConfigureVerdict, DecodeOptions;
    var options := DecodeOptions(encoded);
    if options.Success? && cid in m.channels {
      var v := ConfigureVerdict(m.channels[cid], flags, options.value);
      var response := TryEncodeOptions(v.response);
      if response.Success? {
        QueueControlBehind(q, m.(channels := m.channels[cid := v.channel]),
                           ConfigureResponse(id, m.channels[cid].destinationCid, 0, v.result, response.value));
      }
    }
  }

  lemma ConnectionRequestBehind(q: seq<Pdu>, m: Manager, id: byte, psm: u32, remote: u16)
    ensures SameBehind(q, OnConnectionRequest(m, id, psm, remote), OnConnectionRequest(Behind(q, m), id, psm, remote))
  {
    hide QueueControl, QueueConfigureRequest, FreeCid;
    QueueControlBehind(q, m, ConnectionResponse(id, 0, remote, REFUSED_PSM, 0));
    QueueControlBehind(q, m, ConnectionResponse(id, 0, remote, REFUSED_RESOURCES, 0));
    var cid := FreeCid(m.channels, FIRST_CID);
    if psm in m.servers && cid.Some? {
      var n := Channels.Put(m, IncomingChannel(psm, cid.value, remote, m.servers[psm]));
      var f := ConnectionResponse(id, cid.value, remote, SUCCESS, 0);
      QueueControlBehind(q, n, f);
      QueueConfigureBehind(q, QueueControl(n, f), cid.value);
    }
  }

  lemma ConnectionResponseBehind(q: seq<Pdu>, m: Manager, destination: u16, cid: u16, result: u16)
    ensures SameBehind(q, OnConnectionResponse(m, destination, cid, result),
                       OnConnectionResponse(Behind(q, m), destination, cid, result))
  {
    hide QueueConfigureRequest;
    if cid in m.channels {
      var c := m.channels[cid];
      var d := c.(connectionResult := Some(result), destinationCid := destination, state := Configuring);
      QueueConfigureBehind(q, m.(channels := m.channels[cid := d]), cid);
    }
  }

  lemma ControlBehind(q: seq<Pdu>, m: Manager, f: ControlFrame)
    ensures SameBehind(q, ProcessControl(m, f), ProcessControl(Behind(q, m), f))
  {
    hide QueueControl, OnConnectionRequest, OnConnectionResponse, OnConfigureRequest, OnConfigureResponse,
         OnDisconnectionRequest, OnDisconnectionResponse, Inform;
    match f
    case ConnectionRequest(id, psm, source) => ConnectionRequestBehind(q, m, id, psm, source);
    case ConnectionResponse(_, destination, source, result, _) =>
      ConnectionResponseBehind(q, m, destination, source, result);
    case ConfigureRequest(id, destination, flags, options) => ConfigureBehind(q, m, id, destination, flags, options);
    case ConfigureResponse(_, source, _, result, _) => ClosingBehind(q, m, 0, source, result);
    case DisconnectionRequest(id, destination, source) => ClosingBehind(q, m, id, destination, source);
    case DisconnectionResponse(_, destination, source) => ClosingBehind(q, m, 0, source, destination);
    case EchoRequest(id, data) => QueueControlBehind(q, m, EchoResponse(id, data));
    case InformationRequest(id, infoType) => QueueControlBehind(q, m, Inform(m.information, id, infoType));
    case _ =>
  }

  lemma ClosingBehind(q: seq<Pdu>, m: Manager, id: byte, cid: u16, other: u16)
    ensures SameBehind(q, OnDisconnectionRequest(m, id, cid, other),
                       OnDisconnectionRequest(Behind(q, m), id, cid, other))
    ensures SameBehind(q, OnDisconnectionResponse(m, other, cid), OnDisconnectionResponse(Behind(q, m), other, cid))
    ensures SameBehind(q, OnConfigureResponse(m, cid, other), OnConfigureResponse(Behind(q, m), cid, other))
  {
    hide QueueControl;
    if cid in m.channels {
      QueueControlBehind(q, m.(channels := m.channels[cid := m.channels[cid].(state := Closed)]),
                         DisconnectionResponse(id, cid, other));
    }
  }

  lemma {:induction false} QueueFramesBehind(q: seq<Pdu>, m: Manager, destination: u16, fcs: bool,
                                             frames: seq<seq<byte>>)
    ensures SameBehind(q, QueueFrames(m, destination, fcs, frames), QueueFrames(Behind(q, m), destination, fcs, frames))
    decreases |frames|
  {
    hide Fcs.AppendFcs;
    if frames != [] {
      var payload := if fcs then Fcs.AppendFcs(destination, frames[0]) else Success(frames[0]);
      if payload.Success? {
        var p := Pdu(destination, payload.value);
        assert q + m.outbound + [p] == q + (m.outbound + [p]);
        QueueFramesBehind(q, m.(outbound := m.outbound + [p]), destination, fcs, frames[1..]);
      }
    }
  }

  lemma AfterEngineBehind(q: seq<Pdu>, m: Manager, cid: u16, step: Ertm.Step)
    requires cid in m.channels
    ensures SameBehind(q, AfterEngine(m, cid, step), AfterEngine(Behind(q, m), cid, step))
  {
    hide QueueFrames;
    var c, e := m.channels[cid], step.engine;
    var n := m.channels[cid := c.(ertm := Some(e))][cid := c.(ertm := Some(Drained(e)),
                                                              received := c.received + e.received)];
    QueueFramesBehind(q, m.(channels := n), c.destinationCid, c.fcsEnabled, e.outbound);
  }

  /** Processing a PDU. */
  lemma ProcessBehind(q: seq<Pdu>, m: Manager, pdu: Pdu)
    ensures SameBehind(q, ProcessPdu(m, pdu), ProcessPdu(Behind(q, m), pdu))
  {
    hide DecodeFrame, ProcessControl, AfterEngine, Ertm.ReceiveFrame, Fcs.VerifyAndStripFcs;
    if pdu.cid == SIGNALING_CID {
      if DecodeFrame(pdu.payload).Success? { ControlBehind(q, m, DecodeFrame(pdu.payload).value); }
    } else if pdu.cid in m.channels && m.channels[pdu.cid].ertm.Some? {
      var c := m.channels[pdu.cid];
      var payload := if c.fcsEnabled then Fcs.VerifyAndStripFcs(pdu.cid, pdu.payload) else Success(pdu.payload);
      if payload.Success? { AfterEngineBehind(q, m, pdu.cid, Ertm.ReceiveFrame(c.ertm.value, payload.value)); }
    }
  }

  /** Sending. */
  lemma SendBehind(q: seq<Pdu>, m: Manager, cid: u16, sdu: seq<byte>)
    requires EnginesValid(m)
    ensures SameBehind(q, Send(m, cid, sdu), Send(Behind(q, m), cid, sdu))
  {
    hide AfterEngine, Ertm.SendSdu;
    if cid in m.channels {
      var c := m.channels[cid];
      if c.ertm.Some? { AfterEngineBehind(q, m, cid, Ertm.SendSdu(c.ertm.value, sdu)); }
      var p := Pdu(c.destinationCid, sdu);
      assert q + m.outbound + [p] == q + (m.outbound + [p]);
    }
  }

  /** Connecting. */
  lemma ConnectBehind(q: seq<Pdu>, m: Manager, psm: u32, spec: ChannelSpec)
    ensures Connect(Behind(q, m), psm, spec) == (Behind(q, Connect(m, psm, spec).0), Connect(m, psm, spec).1)
  {
    hide QueueControl, FreeCid, ValidPsm;
    var cid := FreeCid(m.channels, FIRST_CID);
    if cid.Some? {
      var id := NextIdentifier(m.identifier);
      QueueControlBehind(q, Channels.Put(m.(identifier := id), OutgoingChannel(psm, cid.value, spec)),
                         ConnectionRequest(id, psm, cid.value));
    }
  }

  /** Registering a server and taking an SDU leave the queue alone. */
  lemma CallsBehind(q: seq<Pdu>, m: Manager, psm: Option<u32>, spec: ChannelSpec, cid: u16)
    ensures RegisterServer(Behind(q, m), psm, spec)
            == (Behind(q, RegisterServer(m, psm, spec).0), RegisterServer(m, psm, spec).1)
    ensures RegisterServer(m, psm, spec).0.outbound == m.outbound
    ensures RegisterServer(m, psm, spec).1.Failure? ==> RegisterServer(m, psm, spec).0 == m
    ensures PopReceived(Behind(q, m), cid) == Behind(q, PopReceived(m, cid))
            && PopReceived(m, cid).outbound == m.outbound
  {
    hide FreePsm, ValidPsm, ValidSpec;
  }
}
