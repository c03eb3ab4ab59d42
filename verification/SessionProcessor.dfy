/** The session as the mutable object it is, proved against module Session. */
module SessionProcessor {
  import opened Bytes
  import Hci
  import AclFlow
  import Channels
  import Host
  import HostCalls
  import Spec = Session
  import opened Session

  type Address = Host.Address

  class BackendSession {
    var host: Host.Host
    var window: Window
    var connection: Option<(Address, u16)>
    var rejected: set<u16>
    var protocols: Protocols
    var activeReconnect: bool
    var terminal: Option<ErrorKind>
    var closed: bool
    var events: seq<Event>
    const inquiryResponse: seq<byte>
    var budget: nat
    var answers: seq<seq<Action>>
    var sent: seq<Sent>

    ghost function View(): Session
      reads this
    {
      Session(host, window, connection, rejected, protocols, activeReconnect, terminal, closed, events, inquiryResponse,
              budget, answers, sent)
    }

    constructor (h: Host.Host, inquiry: seq<byte>)
      ensures View() == Session(h, Idle, None, {}, NO_PROTOCOLS, false, None, false, [], inquiry, 0, [], [])
    {
      host, window, connection, rejected, protocols, activeReconnect := h, Idle, None, {}, NO_PROTOCOLS, false;
      terminal, closed, events, inquiryResponse, budget, answers, sent := None, false, [], inquiry, 0, [], [];
    }

    // The commands that end a window.
    function Quiet(): seq<Sent>
      reads this
    {
      [CommandSent(0x0C52, [0] + inquiryResponse), Scan(false, true), Scan(false, false)]
    }

    method Send(packet: Sent) returns (error: Option<ErrorKind>)
      modifies this
      ensures Reply(View(), error) == Spec.Send(old(View()), packet)
    {
      if budget == 0 { return Some(SourceTerminated); }
      budget := budget - 1;
      sent := sent + [packet];
      error := None;
    }

    method SendAll(packets: seq<Sent>) returns (error: Option<ErrorKind>)
      modifies this
      ensures Reply(View(), error) == Spec.SendAll(old(View()), packets)
    {
      hide Spec.Send;
      var i := 0;
      while i < |packets|
        invariant 0 <= i <= |packets|
        invariant Spec.SendAll(View(), packets[i..]) == Spec.SendAll(old(View()), packets)
      {
        assert packets[i..][0] == packets[i] && packets[i..][1..] == packets[i + 1..];
        error := Send(packets[i]);
        if error.Some? { return; }
        i := i + 1;
      }
      error := None;
    }

    method EndConnectionWindow() returns (error: Option<ErrorKind>)
      modifies this
      ensures Reply(View(), error) == EndWindow(old(View()))
    {
      hide Spec.SendAll;
      if window == Idle { return None; }
      error := SendAll(Quiet());
      if error.Some? { return; }
      window := Idle;
    }

    method EnqueueEvent(e: Event)
      modifies this
      ensures View() == Enqueue(old(View()), e)
    {
      if terminal.Some? { return; }
      if |events| == EVENT_CAPACITY {
        terminal := Some(EventQueueOverflow);
        return;
      }
      events := events + [e];
    }

    // A channel towards the peer's control or interrupt service.
    method OpenHid(psm: u32) returns (cid: Option<u16>)
      requires Host.ValidHost(host)
      modifies this
      ensures (View(), cid) == ConnectHid(old(View()), psm)
    {
      hide AclFlow.Valid, Hci.ValidAssembler, Channels.EnginesValid, Host.ConnectChannel, Host.ConnectedCid;
      var r := Host.ConnectChannel(host, psm, HID_SPEC);
      cid := if r.error.Some? then None else Host.ConnectedCid(host, psm, HID_SPEC);
      host := r.host;
    }

    method StartActiveReconnectControl() returns (error: Option<ErrorKind>)
      requires Host.ValidHost(host)
      modifies this
      ensures Reply(View(), error) == StartControl(old(View()))
    {
      hide Host.ValidHost, ConnectHid;
      if !activeReconnect || protocols.control.Some? { return None; }
      var cid := OpenHid(HID_CONTROL_PSM);
      if cid.None? { return Some(ProtocolViolation); }
      protocols := protocols.(control := Some(ProtocolChannel(cid.value, false)));
      error := None;
    }

    method OnOpened(psm: u32, cid: u16) returns (error: Option<ErrorKind>)
      requires Host.ValidHost(host)
      modifies this
      ensures Reply(View(), error) == OnChannelOpened(old(View()), psm, cid)
    {
      hide Host.ValidHost, ConnectHid;
      if host.connection.None? || cid !in host.connection.value.channels.channels { return Some(ProtocolViolation); }
      var c := host.connection.value.channels.channels[cid];
      if c.state != Channels.Open || c.psm != psm { return Some(ProtocolViolation); }
      if psm == SDP_PSM {
        protocols := protocols.(sdp := protocols.sdp + {cid});
      } else if psm == HID_CONTROL_PSM {
        if protocols.control.None? || (protocols.control.value.cid == cid && !protocols.control.value.open) {
          protocols := protocols.(control := Some(ProtocolChannel(cid, true)));
          EnqueueEvent(ChannelReady(Control));
        }
        if activeReconnect && protocols.interrupt.None? {
          var interrupt := OpenHid(HID_INTERRUPT_PSM);
          if interrupt.None? { return Some(ProtocolViolation); }
          protocols := protocols.(interrupt := Some(ProtocolChannel(interrupt.value, false)));
        }
      } else if psm == HID_INTERRUPT_PSM {
        if protocols.interrupt.None? || (protocols.interrupt.value.cid == cid && !protocols.interrupt.value.open) {
          protocols := protocols.(interrupt := Some(ProtocolChannel(cid, true)));
          EnqueueEvent(ChannelReady(Interrupt));
        }
      } else {
        return Some(ProtocolViolation);
      }
      error := None;
    }

    method HandleHostEvent(e: Host.SessionEvent) returns (error: Option<ErrorKind>)
      requires Host.ValidHost(host)
      modifies this
      ensures Reply(View(), error) == OnHostEvent(old(View()), e)
    {
      hide Host.ValidHost, Spec.SendAll, OnChannelOpened, StartControl;
      match e {
        case Connected(peer, handle) =>
          connection, window, protocols := Some((peer, handle)), Window.Connected, NO_PROTOCOLS;
          error := SendAll(Quiet());
          if error.Some? { return; }
          EnqueueEvent(ConnectedTo(peer));
        case Disconnected(_, reason) =>
          connection, window, protocols, activeReconnect := None, Idle, NO_PROTOCOLS, false;
          EnqueueEvent(DisconnectedFrom(reason));
          error := None;
        case Encrypted(_) => error := StartActiveReconnectControl();
        case ChannelOpened(psm, cid) => error := OnOpened(psm, cid);
        case BondStored(_) => error := None;
      }
    }

    // The loop over the host's output.
    method DrainHostOutput() returns (error: Option<ErrorKind>)
      requires Host.ValidHost(host)
      modifies this
      ensures Reply(View(), error) == Drain(old(View()))
    {
      hide Host.ValidHost, OnHostEvent, HostCalls.Notices;
      while host.output != []
        invariant Host.ValidHost(host)
        invariant Drain(View()) == Drain(old(View()))
        decreases HostCalls.Notices(host), |host.output|
      {
        DrainOneKeeps(View());
        PopKeeps(host);
        var out := host.output[0];
        host := Host.PopOutput(host);
        match out {
          case CommandOut(opcode, parameters) => error := Send(CommandSent(opcode, parameters));
          case AclOut(packet) => error := Send(AclSent(packet));
          case EventOut(e) => error := HandleHostEvent(e);
        }
        if error.Some? { return; }
      }
      error := None;
    }

    method DispatchEvents(classic: seq<Host.ClassicEvent>) returns (error: Option<ErrorKind>)
      requires Host.ValidHost(host)
      modifies this
      ensures Reply(View(), error) == Dispatch(old(View()), classic)
    {
      hide Drain, Host.HandleEvent, AclFlow.Valid, Hci.ValidAssembler, Channels.EnginesValid;
      var i := 0;
      while i < |classic|
        invariant 0 <= i <= |classic| && Host.ValidHost(host)
        invariant Dispatch(View(), classic[i..]) == Dispatch(old(View()), classic)
      {
        assert classic[i..][0] == classic[i] && classic[i..][1..] == classic[i + 1..];
        var r := Host.HandleEvent(host, classic[i]);
        HostCalls.HandleKeeps(host, classic[i]);
        host := r.host;
        if r.error.Some? { return Some(ProtocolViolation); }
        i := i + 1;
      }
      assert classic[|classic|..] == [];
      error := DrainHostOutput();
    }

    method HandleEvent(code: byte, p: seq<byte>) returns (error: Option<ErrorKind>)
      requires Host.ValidHost(host)
      modifies this
      ensures Reply(View(), error) == OnEvent(old(View()), code, p)
    {
      hide Dispatch, EndWindow, Host.ValidHost;
      var classic := DecodeEvent(code, p);
      if classic.None? { return Some(ProtocolViolation); }
      if code == CONNECTION_REQUEST {
        var peer := AddressAt(p, 0);
        var accepted := false;
        if p[9] == 1 {
          match window {
            case Pairing(latched) =>
              if latched.None? {
                window := Pairing(Some(peer));
                accepted := true;
              } else {
                accepted := latched.value == peer;
              }
            case Reconnecting(expected) => accepted := expected == peer;
            case _ =>
          }
        }
        if !accepted {
          error := Send(CommandSent(REJECT, peer + [0x0F]));
          return;
        }
      }
      if code == CONNECTION_COMPLETE {
        if p[0] == 0 && (Expected(window) != Some(AddressAt(p, 3)) || p[9] != 1) {
          error := Send(CommandSent(DISCONNECT, p[1..3] + [0x05]));
          if error.None? { rejected := rejected + {Le16At(p, 1)}; }
          return;
        }
        if p[0] != 0 {
          EndWindowKeeps(View());
          error := EndConnectionWindow();
          if error.Some? { return; }
          activeReconnect := false;
          EnqueueEvent(DisconnectedFrom(p[0]));
        }
      }
      if code == DISCONNECTION_COMPLETE && p[0] == 0 && Le16At(p, 1) in rejected {
        rejected := rejected - {Le16At(p, 1)};
        return None;
      }
      error := DispatchEvents(classic.value);
    }

    method RefreshChannel(known: Option<ProtocolChannel>, psm: u32) returns (error: Option<ErrorKind>)
      requires Host.ValidHost(host)
      modifies this
      ensures Reply(View(), error) == RefreshOne(old(View()), known, psm)
    {
      hide Host.ValidHost, OnChannelOpened;
      if known.None? || known.value.open { return None; }
      if host.connection.None? || known.value.cid !in host.connection.value.channels.channels { return None; }
      if host.connection.value.channels.channels[known.value.cid].state != Channels.Open { return None; }
      error := OnOpened(psm, known.value.cid);
    }

    method RefreshOutgoingChannels() returns (error: Option<ErrorKind>)
      requires Host.ValidHost(host)
      modifies this
      ensures Reply(View(), error) == Refresh(old(View()))
    {
      hide Host.ValidHost, RefreshOne, Works;
      RefreshWorks(View(), protocols.control, HID_CONTROL_PSM);
      error := RefreshChannel(protocols.control, HID_CONTROL_PSM);
      if error.Some? { return; }
      error := RefreshChannel(protocols.interrupt, HID_INTERRUPT_PSM);
    }

    // What a service does with one SDU.
    method Apply(service: Service, actions: seq<Action>) returns (error: Option<ErrorKind>)
      requires Host.ValidHost(host)
      modifies this
      ensures Reply(View(), error) == ActAll(old(View()), service, actions)
    {
      hide Host.ValidHost, Host.SendChannelSdu, Works, HostCalls.WaitingAt;
      var i := 0;
      while i < |actions|
        invariant 0 <= i <= |actions| && Host.ValidHost(host)
        invariant ActAll(View(), service, actions[i..]) == ActAll(old(View()), service, actions)
      {
        assert actions[i..][0] == actions[i] && actions[i..][1..] == actions[i + 1..];
        ActWorks(View(), service, actions[i], 0);
        match actions[i] {
          case Respond(sdu) =>
            var cid := match service
                       case Sdp(c) => Some(c)
                       case Hid(_) =>
                         if protocols.control.Some? && protocols.control.value.open then
                           Some(protocols.control.value.cid)
                         else None;
            if cid.Some? {
              var r := Host.SendChannelSdu(host, cid.value, sdu);
              host := r.host;
              if r.error.Some? { return Some(ProtocolViolation); }
            }
          case Report(payload) =>
            if service.Hid? { EnqueueEvent(OutputReport(service.channel, payload)); }
        }
        i := i + 1;
      }
      error := None;
    }

    // Every SDU that waits on a channel goes to its service.
    method ServeChannel(service: Service, cid: u16) returns (error: Option<ErrorKind>)
      requires Host.ValidHost(host)
      modifies this
      ensures Reply(View(), error) == Serve(old(View()), service, cid)
    {
      hide Host.ValidHost, ActAll, HostCalls.WaitingAt, Works;
      while HostCalls.FirstSdu(host, cid).Some?
        invariant Host.ValidHost(host)
        invariant Serve(View(), service, cid) == Serve(old(View()), service, cid)
        decreases HostCalls.WaitingAt(host, cid)
      {
        TakenKeeps(View(), cid);
        var actions := if answers == [] then [] else answers[0];
        host, answers := Host.TakeChannelSdu(host, cid), if answers == [] then [] else answers[1..];
        ActAllWorks(View(), service, actions, cid);
        error := Apply(service, actions);
        if error.Some? { return; }
      }
      error := None;
    }

    // The SDP servers in CID order, then the control and the interrupt channel.
    method ProcessProtocolInput() returns (error: Option<ErrorKind>)
      requires Host.ValidHost(host)
      modifies this
      ensures Reply(View(), error) == ServeAll(old(View()))
    {
      hide Host.ValidHost, Serve, Works;
      ServeSdpWorks(View(), protocols.sdp, 0);
      error := ServeSdpChannels(protocols.sdp);
      if error.Some? { return; }
      var control, interrupt := protocols.control, protocols.interrupt;
      if control.Some? && control.value.open {
        ServeWorks(View(), Hid(Control), control.value.cid);
        error := ServeChannel(Hid(Control), control.value.cid);
        if error.Some? { return; }
      }
      if interrupt.Some? && interrupt.value.open {
        error := ServeChannel(Hid(Interrupt), interrupt.value.cid);
      }
    }

    method ServeSdpChannels(cids: set<u16>) returns (error: Option<ErrorKind>)
      requires Host.ValidHost(host)
      modifies this
      ensures Reply(View(), error) == ServeSdp(old(View()), cids, 0)
    {
      hide Host.ValidHost, Serve, Works;
      var cid: nat := 0;
      while cid <= 0xFFFF
        invariant cid <= 0x1_0000 && Host.ValidHost(host)
        invariant ServeSdp(View(), cids, cid) == ServeSdp(old(View()), cids, 0)
      {
        if cid in cids {
          ServeWorks(View(), Sdp(cid), cid);
          error := ServeChannel(Sdp(cid), cid);
          if error.Some? { return; }
        }
        cid := cid + 1;
      }
      error := None;
    }

    method HandleAcl(packet: Hci.AclPacket) returns (error: Option<ErrorKind>)
      requires Host.ValidHost(host)
      modifies this
      ensures Reply(View(), error) == OnAcl(old(View()), packet)
    {
      HostCalls.ProcessAclKeeps(host, packet);
      var r := Host.ProcessAcl(host, packet);
      hide Host.ValidHost, Drain, Refresh, ServeAll, Host.ProcessAcl, Works;
      host := r.host;
      if r.error.Some? { return Some(ProtocolViolation); }
      DrainKeeps(View());
      error := DrainHostOutput();
      if error.Some? { return; }
      RefreshAllWorks(View());
      error := RefreshOutgoingChannels();
      if error.Some? { return; }
      ServeAllWorks(View());
      error := ProcessProtocolInput();
      if error.Some? { return; }
      error := DrainHostOutput();
    }

    method SendInterruptReport(encoded: Option<seq<byte>>) returns (error: Option<ErrorKind>)
      requires Host.ValidHost(host)
      modifies this
      ensures Reply(View(), error) == SendReport(old(View()), encoded)
    {
      hide Host.ValidHost, Drain, Host.SendChannelSdu, HostCalls.Grows;
      if protocols.interrupt.None? || !protocols.interrupt.value.open { return Some(SendRejected); }
      if encoded.None? { return Some(SendRejected); }
      var cid := protocols.interrupt.value.cid;
      HostCalls.SendGrows(host, cid, encoded.value);
      var r := Host.SendChannelSdu(host, cid, encoded.value);
      HostCalls.GrowsOutput(host, r.host);
      host := r.host;
      if r.error.Some? { return Some(SendRejected); }
      error := DrainHostOutput();
    }

    method BeginPairing() returns (error: Option<ErrorKind>)
      modifies this
      ensures Reply(View(), error) == StartPairing(old(View()))
    {
      hide Spec.SendAll;
      match window {
        case Pairing(_) => return None;
        case Idle =>
        case _ => return Some(SendRejected);
      }
      error := SendAll([Scan(false, true), CommandSent(0x0C52, [0] + inquiryResponse), Scan(true, true)]);
      if error.Some? { return; }
      activeReconnect, window := false, Pairing(None);
    }

    method BeginReconnect() returns (error: Option<ErrorKind>)
      modifies this
      ensures Reply(View(), error) == StartReconnect(old(View()))
    {
      hide Spec.SendAll, SoleBond;
      match window {
        case Reconnecting(_) => return None;
        case Idle =>
        case _ => return Some(SendRejected);
      }
      var bond := SoleBond(host.bonds);
      if bond.None? { return Some(if |host.bonds| == 0 then NoBond else InvalidBondStore); }
      error := SendAll([Scan(false, true), CommandSent(0x0C52, [0] + inquiryResponse), Scan(false, true),
                        CommandSent(0x0405, bond.value + [0, 0, 0, 0, 0, 0, 1])]);
      if error.Some? { return; }
      activeReconnect, window := true, Reconnecting(bond.value);
    }

    method Disconnect() returns (error: Option<ErrorKind>)
      modifies this
      ensures Reply(View(), error) == Hangup(old(View()))
    {
      hide EndWindow;
      protocols, activeReconnect := NO_PROTOCOLS, false;
      var open := connection;
      connection := None;
      if open.Some? {
        error := Send(CommandSent(DISCONNECT, Le16(open.value.1) + [0x13]));
        if error.Some? { return; }
      }
      error := EndConnectionWindow();
    }

    method Shutdown()
      modifies this
      ensures View() == if old(closed) then old(View()) else Close(old(View()))
    {
      if closed { return; }
      closed, connection, rejected, window := true, None, {}, Idle;
      protocols, activeReconnect, events := NO_PROTOCOLS, false, [];
    }
  }
}
