/** What the host's calls keep: its validity, its connection, and the order of what it has put out. */
module HostCalls {
  import opened Bytes
  import Signaling
  import Channels
  import ChannelLifecycle
  import Ertm
  import Fcs
  import Hci
  import AclFlow
  import opened Host

  // An output that changes no connection and accepts none.
  predicate Plain(out: HostOutput) {
    match out
    case CommandOut(opcode, _) => opcode != 0x0409
    case AclOut(_) => true
    case EventOut(e) => !e.Connected? && !e.Disconnected?
  }

  predicate AllPlain(output: seq<HostOutput>) { forall i :: 0 <= i < |output| ==> Plain(output[i]) }

  // How many events are put out.
  function Events(output: seq<HostOutput>): nat {
    if output == [] then 0 else Events(output[..|output| - 1]) + (if output[|output| - 1].EventOut? then 1 else 0)
  }

  lemma {:induction false} EventsConcat(s: seq<HostOutput>, t: seq<HostOutput>)
    ensures Events(s + t) == Events(s) + Events(t)
  {
    if t == [] {
      assert s + t == s;
    } else {
      assert (s + t)[..|s + t| - 1] == s + t[..|t| - 1];
      EventsConcat(s, t[..|t| - 1]);
    }
  }

  lemma EventsPopped(output: seq<HostOutput>)
    requires output != []
    ensures Events(output) == (if output[0].EventOut? then 1 else 0) + Events(output[1..])
  {
    EventsConcat([output[0]], output[1..]);
    assert [output[0]] + output[1..] == output && [output[0]][..0] == [];
  }

  // Channels accepted but not announced, and announcements and other events not popped.
  function Notices(h: Host): nat {
    Events(h.output) + (if h.connection.Some? then |h.connection.value.channels.accepted| else 0)
  }

  // The same connection, and only plain output after what was put out before.
  predicate Grows(h: Host, g: Host) {
    && g == h.(connection := g.connection, flow := g.flow, output := g.output)
    && (g.connection.Some? <==> h.connection.Some?)
    && (h.connection.Some? ==> g.connection.value == h.connection.value.(channels := g.connection.value.channels))
    && |h.output| <= |g.output| && g.output[..|h.output|] == h.output && AllPlain(g.output[|h.output|..])
    && ValidHost(g) && Notices(g) <= Notices(h)
  }

  // ---------------------------------------------------------------------------
  // Engines
  // ---------------------------------------------------------------------------

  lemma VerdictEngine(c: Channels.Channel, flags: u16, options: seq<Signaling.ConfigurationOption>)
    ensures var d := Channels.ConfigureVerdict(c, flags, options).channel;
            d.ertm == c.ertm || (d.ertm.Some? && Ertm.ValidConfig(d.ertm.value.config))
  {
    hide Channels.Negotiate, Ertm.ValidConfig;
  }

  lemma UpdateKeepsEngines(m: Channels.Manager, n: Channels.Manager, cid: u16, c: Channels.Channel)
    requires Channels.EnginesValid(m) && n.channels == m.channels[cid := c]
    requires c.ertm.Some? ==> Ertm.ValidConfig(c.ertm.value.config)
    ensures Channels.EnginesValid(n)
  {
    hide Ertm.ValidConfig;
  }

  lemma OpeningKeepsEngines(m: Channels.Manager, cid: u16)
    requires Channels.EnginesValid(m)
    ensures Channels.EnginesValid(Channels.MaybeOpen(m, cid))
  {
    hide Ertm.ValidConfig;
  }

  lemma ConfigureKeepsEngines(m: Channels.Manager, id: byte, cid: u16, flags: u16, encoded: seq<byte>)
    requires Channels.EnginesValid(m)
    ensures Channels.EnginesValid(Channels.OnConfigureRequest(m, id, cid, flags, encoded).manager)
  {
    hide Channels.ConfigureVerdict, Channels.MaybeOpen, Channels.TryEncodeOptions, Signaling.EncodeFrame,
         Signaling.DecodeOptions, Channels.EnginesValid;
    var options := Signaling.DecodeOptions(encoded);
    if options.Success? && cid in m.channels {
      var v := Channels.ConfigureVerdict(m.channels[cid], flags, options.value);
      VerdictEngine(m.channels[cid], flags, options.value);
      if m.channels[cid].ertm.Some? { EngineOfChannel(m, cid); }
      var n := m.(channels := m.channels[cid := v.channel]);
      UpdateKeepsEngines(m, n, cid, v.channel);
      var response := Channels.TryEncodeOptions(v.response);
      if response.Success? {
        var f := Signaling.ConfigureResponse(id, m.channels[cid].destinationCid, 0, v.result, response.value);
        UpdateKeepsEngines(m, Channels.QueueControl(n, f), cid, v.channel);
        OpeningKeepsEngines(Channels.QueueControl(n, f), cid);
      }
    }
  }

  lemma EngineOfChannel(m: Channels.Manager, cid: u16)
    requires Channels.EnginesValid(m) && cid in m.channels && m.channels[cid].ertm.Some?
    ensures Ertm.ValidConfig(m.channels[cid].ertm.value.config)
  {
    hide Ertm.ValidConfig;
  }

  lemma ConnectionsKeepEngines(m: Channels.Manager, f: Signaling.ControlFrame)
    requires Channels.EnginesValid(m) && (f.ConnectionRequest? || f.ConnectionResponse?)
    ensures Channels.EnginesValid(Channels.ProcessControl(m, f).manager)
  {
    hide Ertm.ValidConfig, Channels.TryEncodeOptions, Signaling.EncodeFrame, Channels.FreeCid, Channels.Proposal;
  }

  lemma ControlKeepsEngines(m: Channels.Manager, f: Signaling.ControlFrame)
    requires Channels.EnginesValid(m)
    ensures Channels.EnginesValid(Channels.ProcessControl(m, f).manager)
  {
    hide Channels.OnConfigureRequest, Ertm.ValidConfig, Signaling.EncodeFrame, Channels.Inform,
         Channels.OnConnectionRequest, Channels.OnConnectionResponse;
    if f.ConfigureRequest? { ConfigureKeepsEngines(m, f.identifier, f.destinationCid, f.flags, f.options); }
    if f.ConnectionRequest? || f.ConnectionResponse? { ConnectionsKeepEngines(m, f); }
  }

  lemma AfterEngineKeeps(m: Channels.Manager, cid: u16, step: Ertm.Step)
    requires Channels.EnginesValid(m) && cid in m.channels && Ertm.ValidConfig(step.engine.config)
    ensures var n := Channels.AfterEngine(m, cid, step).manager;
            Channels.EnginesValid(n) && n.accepted == m.accepted
  {
    hide Channels.QueueFrames, Ertm.ValidConfig;
    var c, e := m.channels[cid], step.engine;
    var d := c.(ertm := Some(Channels.Drained(e)), received := c.received + e.received);
    var n := m.(channels := m.channels[cid := c.(ertm := Some(e))]);
    ChannelLifecycle.QueueFramesSame(n.(channels := n.channels[cid := d]), c.destinationCid, c.fcsEnabled, e.outbound);
  }

  lemma PduKeepsEngines(m: Channels.Manager, pdu: Signaling.Pdu)
    requires Channels.EnginesValid(m)
    ensures Channels.EnginesValid(Channels.ProcessPdu(m, pdu).manager)
  {
    hide Channels.ProcessControl, Channels.AfterEngine, Ertm.ReceiveFrame, Ertm.ValidConfig, Fcs.VerifyAndStripFcs,
         Signaling.DecodeFrame;
    if pdu.cid == Channels.SIGNALING_CID {
      var f := Signaling.DecodeFrame(pdu.payload);
      if f.Success? { ControlKeepsEngines(m, f.value); }
    } else if pdu.cid in m.channels && m.channels[pdu.cid].state == Channels.Open && m.channels[pdu.cid].ertm.Some? {
      var c := m.channels[pdu.cid];
      var payload := if c.fcsEnabled then Fcs.VerifyAndStripFcs(pdu.cid, pdu.payload) else Success(pdu.payload);
      if payload.Success? {
        Ertm.ReceiveKeepsConfig(c.ertm.value, payload.value);
        AfterEngineKeeps(m, pdu.cid, Ertm.ReceiveFrame(c.ertm.value, payload.value));
      }
    }
  }

  lemma SendKeepsEngines(m: Channels.Manager, cid: u16, sdu: seq<byte>)
    requires Channels.EnginesValid(m)
    ensures var n := Channels.Send(m, cid, sdu).manager;
            Channels.EnginesValid(n) && n.accepted == m.accepted
  {
    hide Channels.AfterEngine, Ertm.SendSdu, Ertm.ValidConfig;
    if cid in m.channels && m.channels[cid].state == Channels.Open && m.channels[cid].ertm.Some? {
      var e := m.channels[cid].ertm.value;
      Ertm.CallsKeepConfig(e, sdu, false, 0);
      AfterEngineKeeps(m, cid, Ertm.SendSdu(e, sdu));
    }
  }

  lemma ConnectKeepsEngines(m: Channels.Manager, psm: u32, spec: Channels.ChannelSpec)
    requires Channels.EnginesValid(m)
    ensures var n := Channels.Connect(m, psm, spec).0;
            Channels.EnginesValid(n) && n.accepted == m.accepted
  {
    hide Ertm.ValidConfig, Signaling.EncodeFrame, Channels.FreeCid;
  }

  // ---------------------------------------------------------------------------
  // Flushing
  // ---------------------------------------------------------------------------

  lemma {:induction false} OpenedAreEvents(m: Channels.Manager, cids: seq<u16>)
    ensures var o := OpenedEvents(m, cids);
            |o| <= |cids| && Events(o) <= |cids| && AllPlain(o)
    decreases |cids|
  {
    if cids != [] {
      OpenedAreEvents(m, cids[1..]);
      if cids[0] in m.channels {
        var first := [EventOut(ChannelOpened(m.channels[cids[0]].psm, cids[0]))];
        EventsConcat(first, OpenedEvents(m, cids[1..]));
        assert first[..0] == [] && Events(first) == 1;
      } else {
        assert [] + OpenedEvents(m, cids[1..]) == OpenedEvents(m, cids[1..]);
      }
    }
  }

  lemma {:induction false} PacketsAreNoEvents(packets: seq<Hci.AclPacket>)
    ensures Events(AclOuts(packets)) == 0 && AllPlain(AclOuts(packets))
  {
    if packets != [] {
      var n := |packets| - 1;
      PacketsAreNoEvents(packets[..n]);
      assert AclOuts(packets)[..n] == AclOuts(packets[..n]);
    }
  }

  lemma FlushFlowGrows(h: Host)
    requires AclFlow.Valid(h.flow)
    ensures var g := FlushFlow(h);
            && g == h.(flow := g.flow, output := g.output) && AclFlow.Valid(g.flow)
            && |h.output| <= |g.output| && g.output[..|h.output|] == h.output && AllPlain(g.output[|h.output|..])
            && Events(g.output) == Events(h.output)
  {
    var out := AclOuts(AclFlow.Flush(h.flow).1);
    PacketsAreNoEvents(AclFlow.Flush(h.flow).1);
    EventsConcat(h.output, out);
    hide AclFlow.Valid, AclFlow.Flush, Events, AclOuts;
    assert (h.output + out)[|h.output|..] == out;
  }

  lemma PutGrows(h: Host, g: Host, more: seq<HostOutput>, base: nat)
    requires base <= |h.output| && g == Put(h, more) && AllPlain(h.output[base..]) && AllPlain(more)
    ensures g.output[..base] == h.output[..base] && AllPlain(g.output[base..])
    ensures Events(g.output) == Events(h.output) + Events(more)
  {
    EventsConcat(h.output, more);
    assert g.output[base..] == h.output[base..] + more;
  }

  lemma FlushChannelsGrows(h: Host)
    requires ValidHost(h)
    ensures Grows(h, FlushChannels(h).host)
  {
    hide AclFlow.Valid, FlushFlow, FragmentAll, OpenedEvents, Events, Hci.ValidAssembler, Ertm.ValidConfig;
    if h.connection.Some? {
      var c := h.connection.value;
      var (packets, error) := FragmentAll(c.handle, h.flow.payloadSize, c.channels.outbound);
      var g := h.(connection := Some(c.(channels := c.channels.(outbound := [], accepted := []))),
                  flow := AclFlow.Enqueue(h.flow, packets));
      assert AclFlow.Valid(g.flow) by { AclFlow.SameCredits(h.flow, g.flow); }
      var announced := OpenedEvents(c.channels, c.channels.accepted);
      OpenedAreEvents(c.channels, c.channels.accepted);
      FlushFlowGrows(g);
      PutGrows(FlushFlow(g), Put(FlushFlow(g), announced), announced, |h.output|);
    }
    assert h.output[|h.output|..] == [];
  }

  lemma WithChannelsGrows(h: Host, m: Channels.Manager)
    requires ValidHost(h) && h.connection.Some? && Channels.EnginesValid(m)
             && m.accepted == h.connection.value.channels.accepted
    ensures Grows(h, WithChannels(h, m))
  {
    hide AclFlow.Valid, Events, Hci.ValidAssembler, Ertm.ValidConfig;
    assert h.output[|h.output|..] == [];
  }

  lemma GrowsTransitive(h: Host, g: Host, f: Host)
    requires Grows(h, g) && Grows(g, f)
    ensures Grows(h, f)
  {
    hide ValidHost, Events;
    var n := |h.output|;
    assert f.output[..n] == f.output[..|g.output|][..n];
    assert f.output[n..] == g.output[n..] + f.output[|g.output|..];
  }

  // ---------------------------------------------------------------------------
  // Calls
  // ---------------------------------------------------------------------------

  lemma SendGrows(h: Host, cid: u16, sdu: seq<byte>)
    requires ValidHost(h)
    ensures Grows(h, SendChannelSdu(h, cid, sdu).host)
  {
    hide Grows, FlushChannels, Channels.Send;
    if h.connection.Some? {
      var m := h.connection.value.channels;
      SendKeepsEngines(m, cid, sdu);
      FlushedGrows(h, Channels.Send(m, cid, sdu).manager);
    } else {
      SameGrows(h);
    }
  }

  lemma ConnectGrows(h: Host, psm: u32, spec: Channels.ChannelSpec)
    requires ValidHost(h)
    ensures Grows(h, ConnectChannel(h, psm, spec).host)
  {
    hide Grows, FlushChannels, Channels.Connect;
    SameGrows(h);
    if h.connection.Some? {
      var m := h.connection.value.channels;
      ConnectKeepsEngines(m, psm, spec);
      FlushedGrows(h, Channels.Connect(m, psm, spec).0);
    }
  }

  lemma FlushedGrows(h: Host, m: Channels.Manager)
    requires ValidHost(h) && h.connection.Some? && Channels.EnginesValid(m)
             && m.accepted == h.connection.value.channels.accepted
    ensures Grows(h, WithChannels(h, m)) && Grows(h, FlushChannels(WithChannels(h, m)).host)
  {
    hide FlushChannels, Channels.EnginesValid, Events;
    WithChannelsGrows(h, m);
    FlushChannelsGrows(WithChannels(h, m));
    GrowsTransitive(h, WithChannels(h, m), FlushChannels(WithChannels(h, m)).host);
  }

  lemma SameGrows(h: Host)
    requires ValidHost(h)
    ensures Grows(h, h)
  {
    hide ValidHost, Events;
    assert h.output[|h.output|..] == [];
  }

  lemma TakeGrows(h: Host, cid: u16)
    requires ValidHost(h)
    ensures Grows(h, TakeChannelSdu(h, cid))
  {
    hide AclFlow.Valid, Events, Hci.ValidAssembler, Ertm.ValidConfig;
    assert h.output[|h.output|..] == [];
  }

  lemma ProcessAclKeeps(h: Host, packet: Hci.AclPacket)
    requires ValidHost(h)
    ensures var g := ProcessAcl(h, packet).host;
            && ValidHost(g) && |h.output| <= |g.output| && g.output[..|h.output|] == h.output
               && AllPlain(g.output[|h.output|..])
  {
    hide Grows, FlushChannels, Channels.ProcessPdu, Signaling.DecodePdu, AclFlow.Valid, Hci.FeedPacket,
         Hci.ValidAssembler;
    assert h.output[|h.output|..] == [];
    if CheckHandle(h, packet.handle).None? {
      Hci.FeedIsSound(h.pending, packet);
      var (pending, reply) := Hci.FeedPacket(h.pending, packet);
      if reply.Success? && reply.value.Some? {
        var pdu := Signaling.DecodePdu(reply.value.value);
        if pdu.Success? {
          PduKeepsEngines(h.connection.value.channels, pdu.value);
          var r := Channels.ProcessPdu(h.connection.value.channels, pdu.value);
          var g := WithChannels(h.(pending := pending), r.manager);
          FlushChannelsGrows(g);
          GrowsOutput(g, FlushChannels(g).host);
        }
      }
    }
  }

  lemma GrowsOutput(h: Host, g: Host)
    requires Grows(h, g)
    ensures ValidHost(g) && |h.output| <= |g.output| && g.output[..|h.output|] == h.output
            && AllPlain(g.output[|h.output|..])
    ensures Notices(g) <= Notices(h)
  {
    hide ValidHost, Events;
  }

  /** No event, whatever the controller reports, invalidates the host. */
  lemma HandleKeeps(h: Host, e: ClassicEvent)
    requires ValidHost(h)
    ensures ValidHost(HandleEvent(h, e).host)
  {
    hide AclFlow.Valid, AclFlow.Flush, AclFlow.Complete, AclFlow.ClearHandle, Ertm.ValidConfig;
    match e
    case NumberOfCompletedPackets(handle, completed) => AclFlow.CompleteKeeps(h.flow, handle, completed);
    case DisconnectionComplete(handle, reason) => AclFlow.ClearKeeps(h.flow, handle);
    case _ =>
  }

  // ---------------------------------------------------------------------------
  // SDUs waiting to be taken
  // ---------------------------------------------------------------------------

  // SDUs of a channel that were received and not taken, in the channel or in its engine.
  function Waiting(m: Channels.Manager, cid: u16): nat {
    if cid !in m.channels then 0
    else |m.channels[cid].received| + (if m.channels[cid].ertm.Some? then |m.channels[cid].ertm.value.received| else 0)
  }

  function WaitingAt(h: Host, cid: u16): nat {
    if h.connection.None? then 0 else Waiting(h.connection.value.channels, cid)
  }

  // The first SDU that can be taken from a channel.
  function FirstSdu(h: Host, cid: u16): Option<seq<byte>> {
    if h.connection.None? || cid !in h.connection.value.channels.channels then None
    else
      var received := h.connection.value.channels.channels[cid].received;
      if received == [] then None else Some(received[0])
  }

  lemma TakeLeavesFewer(h: Host, cid: u16)
    requires FirstSdu(h, cid).Some?
    ensures WaitingAt(TakeChannelSdu(h, cid), cid) < WaitingAt(h, cid)
  {
  }

  lemma SendKeepsReceived(e: Ertm.Engine, sdu: seq<byte>)
    requires Ertm.ValidConfig(e.config)
    ensures Ertm.SendSdu(e, sdu).engine.received == e.received
  {
  }

  /** Sending neither adds nor removes an SDU that waits. */
  lemma SendKeepsWaiting(h: Host, target: u16, sdu: seq<byte>, cid: u16)
    requires ValidHost(h)
    ensures WaitingAt(SendChannelSdu(h, target, sdu).host, cid) == WaitingAt(h, cid)
  {
    hide AclFlow.Valid, Hci.ValidAssembler, Ertm.ValidConfig, Ertm.SendSdu, Channels.AfterEngine, FragmentAll,
         FlushFlow, OpenedEvents;
    if h.connection.Some? {
      var m := h.connection.value.channels;
      if target in m.channels && m.channels[target].state == Channels.Open && m.channels[target].ertm.Some? {
        var step := Ertm.SendSdu(m.channels[target].ertm.value, sdu);
        SendKeepsReceived(m.channels[target].ertm.value, sdu);
        AfterEngineKeepsWaiting(m, target, step, cid);
      }
      var r := Channels.Send(m, target, sdu);
      FlushKeepsChannels(WithChannels(h, r.manager));
    }
  }

  lemma FlushKeepsChannels(h: Host)
    requires AclFlow.Valid(h.flow) && h.connection.Some?
    ensures var g := FlushChannels(h).host;
            g.connection.Some? && g.connection.value.channels.channels == h.connection.value.channels.channels
  {
    hide AclFlow.Valid, FragmentAll, AclFlow.Flush, OpenedEvents;
  }

  lemma AfterEngineKeepsWaiting(m: Channels.Manager, target: u16, step: Ertm.Step, cid: u16)
    requires target in m.channels && m.channels[target].ertm.Some?
             && step.engine.received == m.channels[target].ertm.value.received
    ensures Waiting(Channels.AfterEngine(m, target, step).manager, cid) == Waiting(m, cid)
  {
    hide Channels.QueueFrames;
    var c, e := m.channels[target], step.engine;
    var d := c.(ertm := Some(Channels.Drained(e)), received := c.received + e.received);
    var n := m.(channels := m.channels[target := c.(ertm := Some(e))]);
    ChannelLifecycle.QueueFramesSame(n.(channels := n.channels[target := d]), c.destinationCid, c.fcsEnabled,
                                     e.outbound);
  }
}
