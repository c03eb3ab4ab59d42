/**
  * A backend session: connection admission, the channels it opens and serves, and
  * the application's calls, whatever the controller reports.
  */
module Session {
  import opened Bytes
  import Hci
  import Channels
  import opened Host
  import opened HostCalls

  datatype Window = Idle | Pairing(latched: Option<Address>) | Reconnecting(peer: Address) | Connected

  datatype HidChannel = Control | Interrupt

  datatype Event =
    | ConnectedTo(peer: Address)
    | DisconnectedFrom(reason: byte)
    | ChannelReady(channel: HidChannel)
    | OutputReport(channel: HidChannel, payload: seq<byte>)

  datatype ProtocolChannel = ProtocolChannel(cid: u16, open: bool)

  datatype Protocols = Protocols(sdp: set<u16>, control: Option<ProtocolChannel>, interrupt: Option<ProtocolChannel>)

  // What a service does with an SDU it is handed: respond to the peer, or report to the application.
  datatype Action = Respond(sdu: seq<byte>) | Report(payload: seq<byte>)

  datatype Sent = CommandSent(opcode: u16, parameters: seq<byte>) | AclSent(packet: Hci.AclPacket)

  datatype ErrorKind = ProtocolViolation | SourceTerminated | EventQueueOverflow | SendRejected | NoBond
      | InvalidBondStore | Closed

  const EVENT_CAPACITY: nat := 64
  const CONNECTION_COMPLETE: byte := 0x03
  const CONNECTION_REQUEST: byte := 0x04
  const DISCONNECTION_COMPLETE: byte := 0x05
  const ACCEPT: u16 := 0x0409
  const REJECT: u16 := 0x040A
  const DISCONNECT: u16 := 0x0406
  const SDP_PSM: u32 := 0x0001
  const HID_CONTROL_PSM: u32 := 0x0011
  const HID_INTERRUPT_PSM: u32 := 0x0013
  const HID_SPEC := Channels.Basic(672)
  const NO_PROTOCOLS := Protocols({}, None, None)

  // `budget` is how many more packets the adapter takes before it fails; `sent` is what it took.
  // `answers` is what the SDP servers and the HID bridge do with the next SDUs they are handed.
  datatype Session = Session(
    host: Host,
    window: Window,
    connection: Option<(Address, u16)>,
    rejected: set<u16>,
    protocols: Protocols,
    activeReconnect: bool,
    terminal: Option<ErrorKind>,
    closed: bool,
    events: seq<Event>,
    inquiryResponse: seq<byte>,
    budget: nat,
    answers: seq<seq<Action>>,
    sent: seq<Sent>)

  datatype Reply = Reply(session: Session, error: Option<ErrorKind>)

  function Done(s: Session): Reply { Reply(s, None) }

  function Fail(s: Session, e: ErrorKind): Reply { Reply(s, Some(e)) }

  predicate Active(s: Session) { !s.closed && s.terminal.None? }

  // ---------------------------------------------------------------------------
  // Sending
  // ---------------------------------------------------------------------------

  function Send(s: Session, packet: Sent): Reply {
    if s.budget == 0 then Fail(s, SourceTerminated) else Done(s.(budget := s.budget - 1, sent := s.sent + [packet]))
  }

  // One packet after the other, up to the first the adapter does not take.
  function SendAll(s: Session, packets: seq<Sent>): Reply
    decreases |packets|
  {
    if packets == [] then Done(s)
    else
      var r := Send(s, packets[0]);
      if r.error.Some? then r else SendAll(r.session, packets[1..])
  }

  function Scan(discoverable: bool, connectable: bool): Sent {
    CommandSent(0x0C1A, [(if discoverable then 1 else 0) + (if connectable then 2 else 0)])
  }

  function Inquiry(s: Session): Sent { CommandSent(0x0C52, [0] + s.inquiryResponse) }

  function Quieten(s: Session): seq<Sent> { [Inquiry(s), Scan(false, true), Scan(false, false)] }

  function EndWindow(s: Session): Reply {
    if s.window == Idle then Done(s)
    else
      var r := SendAll(s, Quieten(s));
      if r.error.Some? then r else Done(r.session.(window := Idle))
  }

  function Enqueue(s: Session, e: Event): Session {
    if s.terminal.Some? then s
    else if |s.events| == EVENT_CAPACITY then s.(terminal := Some(EventQueueOverflow))
    else s.(events := s.events + [e])
  }

  // ---------------------------------------------------------------------------
  // Decoding controller events
  // ---------------------------------------------------------------------------

  function AddressAt(data: seq<byte>, offset: nat): Address
    requires offset + 6 <= |data|
  {
    data[offset..offset + 6]
  }

  function CompletedAt(data: seq<byte>): seq<ClassicEvent>
    requires |data| % 4 == 0
  {
    if data == [] then [] else [NumberOfCompletedPackets(Le16At(data, 0), Le16At(data, 2))] + CompletedAt(data[4..])
  }

  function DecodeEvent(code: byte, p: seq<byte>): Option<seq<ClassicEvent>> {
    if code == CONNECTION_REQUEST then if |p| != 10 then None else Some([ConnectionRequest(AddressAt(p, 0))])
    else if code == CONNECTION_COMPLETE then
      if |p| != 11 then None else Some([ConnectionComplete(p[0], Le16At(p, 1), AddressAt(p, 3))])
    else if code == 0x17 then if |p| != 6 then None else Some([LinkKeyRequest(AddressAt(p, 0))])
    else if code == 0x18 then if |p| != 23 then None else Some([LinkKeyNotification(AddressAt(p, 0), p[6..22], p[22])])
    else if code == 0x31 then if |p| != 6 then None else Some([IoCapabilityRequest(AddressAt(p, 0))])
    else if code == 0x33 then if |p| != 10 then None else Some([UserConfirmationRequest(AddressAt(p, 0))])
    else if code == 0x06 then if |p| != 3 then None else Some([AuthenticationComplete(p[0], Le16At(p, 1))])
    else if code == 0x08 then if |p| != 4 then None else Some([EncryptionChange(p[0], Le16At(p, 1), p[3] != 0)])
    else if code == 0x13 then
      if p == [] || |p| - 1 != 4 * p[0] as nat then None else Some(CompletedAt(p[1..]))
    else if code == DISCONNECTION_COMPLETE then
      if |p| != 4 then None else if p[0] == 0 then Some([DisconnectionComplete(Le16At(p, 1), p[3])]) else Some([])
    else Some([])
  }

  // ---------------------------------------------------------------------------
  // The host's output
  // ---------------------------------------------------------------------------

  // A channel towards the peer's control or interrupt service.
  function ConnectHid(s: Session, psm: u32): (Session, Option<u16>)
    requires ValidHost(s.host)
  {
    var r := ConnectChannel(s.host, psm, HID_SPEC);
    (s.(host := r.host), if r.error.Some? then None else ConnectedCid(s.host, psm, HID_SPEC))
  }

  function StartControl(s: Session): Reply
    requires ValidHost(s.host)
  {
    if !s.activeReconnect || s.protocols.control.Some? then Done(s)
    else
      var (t, cid) := ConnectHid(s, HID_CONTROL_PSM);
      if cid.None? then Fail(t, ProtocolViolation)
      else Done(t.(protocols := t.protocols.(control := Some(ProtocolChannel(cid.value, false)))))
  }

  function StartInterrupt(s: Session): Reply
    requires ValidHost(s.host)
  {
    if !s.activeReconnect || s.protocols.interrupt.Some? then Done(s)
    else
      var (t, cid) := ConnectHid(s, HID_INTERRUPT_PSM);
      if cid.None? then Fail(t, ProtocolViolation)
      else Done(t.(protocols := t.protocols.(interrupt := Some(ProtocolChannel(cid.value, false)))))
  }

  // No channel of its kind is known yet, or the one known has this CID and was not open.
  predicate FirstOpen(known: Option<ProtocolChannel>, cid: u16) {
    known.None? || (known.value.cid == cid && !known.value.open)
  }

  function NoteControl(s: Session, cid: u16): Session {
    if FirstOpen(s.protocols.control, cid)
    then Enqueue(s.(protocols := s.protocols.(control := Some(ProtocolChannel(cid, true)))), ChannelReady(Control))
    else s
  }

  function NoteInterrupt(s: Session, cid: u16): Session {
    if FirstOpen(s.protocols.interrupt, cid)
    then Enqueue(s.(protocols := s.protocols.(interrupt := Some(ProtocolChannel(cid, true)))), ChannelReady(Interrupt))
    else s
  }

  predicate ChannelIs(h: Host, cid: u16, psm: u32) {
    && h.connection.Some? && cid in h.connection.value.channels.channels
    && h.connection.value.channels.channels[cid].state == Channels.Open
    && h.connection.value.channels.channels[cid].psm == psm
  }

  function OnChannelOpened(s: Session, psm: u32, cid: u16): Reply
    requires ValidHost(s.host)
  {
    if !ChannelIs(s.host, cid, psm) then Fail(s, ProtocolViolation)
    else if psm == SDP_PSM then Done(s.(protocols := s.protocols.(sdp := s.protocols.sdp + {cid})))
    else if psm == HID_CONTROL_PSM then StartInterrupt(NoteControl(s, cid))
    else if psm == HID_INTERRUPT_PSM then Done(NoteInterrupt(s, cid))
    else Fail(s, ProtocolViolation)
  }

  function OnHostEvent(s: Session, e: SessionEvent): Reply
    requires ValidHost(s.host)
  {
    match e
    case Connected(peer, handle) =>
      var open := s.(connection := Some((peer, handle)), window := Window.Connected, protocols := NO_PROTOCOLS);
      var r := SendAll(open, Quieten(open));
      if r.error.Some? then r else Done(Enqueue(r.session, ConnectedTo(peer)))
    case Disconnected(_, reason) =>
      Done(Enqueue(s.(connection := None, window := Idle, protocols := NO_PROTOCOLS, activeReconnect := false),
                   DisconnectedFrom(reason)))
    case Encrypted(_) => StartControl(s)
    case ChannelOpened(psm, cid) => OnChannelOpened(s, psm, cid)
    case BondStored(_) => Done(s)
  }

  // One output of the host.
  function DrainOne(s: Session): Reply
    requires ValidHost(s.host) && s.host.output != []
  {
    var popped := s.(host := PopOutput(s.host));
    match s.host.output[0]
    case CommandOut(opcode, parameters) => Send(popped, CommandSent(opcode, parameters))
    case AclOut(packet) => Send(popped, AclSent(packet))
    case EventOut(e) => OnHostEvent(popped, e)
  }

  // What the host wants done, in order, including what doing it makes the host want.
  function Drain(s: Session): Reply
    requires ValidHost(s.host)
    decreases Notices(s.host), |s.host.output|
  {
    if s.host.output == [] then Done(s)
    else
      var r := DrainOne(s);
      DrainOneKeeps(s);
      if r.error.Some? then r else Drain(r.session)
  }

  // The host of `s` without its first output, then whatever handling that output made it put out.
  predicate Drains(s: Session, t: Session)
    requires s.host.output != []
  {
    Grows(PopOutput(s.host), t.host)
  }

  lemma PopKeeps(h: Host)
    requires ValidHost(h) && h.output != []
    ensures ValidHost(PopOutput(h))
    ensures Notices(h) == Notices(PopOutput(h)) + (if h.output[0].EventOut? then 1 else 0)
  {
    EventsPopped(h.output);
    hide Events;
  }

  /** Every output is handled once: what is left is shorter, or holds fewer events that can add to it. */
  lemma DrainOneKeeps(s: Session)
    requires ValidHost(s.host) && s.host.output != []
    ensures var t := DrainOne(s).session;
            && Drains(s, t) && ValidHost(t.host)
            && (Notices(t.host) < Notices(s.host)
                || (Notices(t.host) == Notices(s.host) && |t.host.output| < |s.host.output|))
  {
    hide ValidHost, Grows, Notices;
    var popped, t := s.(host := PopOutput(s.host)), DrainOne(s).session;
    PopKeeps(s.host);
    SameGrows(popped.host);
    if s.host.output[0].EventOut? { HostEventGrows(popped, s.host.output[0].event); }
    GrowsOutput(popped.host, t.host);
  }

  // The events after the first `n` announce no connection.
  predicate NoneConnected(events: seq<Event>, n: nat) { forall i :: n <= i < |events| ==> !events[i].ConnectedTo? }

  predicate Extends(s: seq<Event>, t: seq<Event>) { |s| <= |t| && t[..|s|] == s }

  // What opening and serving channels may change: no connection, nothing sent, no connection announced.
  predicate Works(s: Session, t: Session) {
    && t == s.(host := t.host, protocols := t.protocols, answers := t.answers, events := t.events,
               terminal := t.terminal)
    && Grows(s.host, t.host)
    && Extends(s.events, t.events) && NoneConnected(t.events, |s.events|)
  }

  lemma SameWorks(s: Session)
    requires ValidHost(s.host)
    ensures Works(s, s)
  {
    hide ValidHost, Grows;
    SameGrows(s.host);
  }

  lemma WorksTransitive(s: Session, t: Session, u: Session)
    requires Works(s, t) && Works(t, u)
    ensures Works(s, u)
  {
    hide Grows;
    GrowsTransitive(s.host, t.host, u.host);
    forall i | |s.events| <= i < |u.events| ensures !u.events[i].ConnectedTo? {
      if i < |t.events| { assert u.events[i] == u.events[..|t.events|][i] == t.events[i]; }
    }
    assert u.events[..|s.events|] == u.events[..|t.events|][..|s.events|];
  }

  lemma WorksValid(s: Session, t: Session)
    requires Works(s, t)
    ensures ValidHost(t.host) && Grows(s.host, t.host)
  {
    hide ValidHost;
  }

  lemma EnqueueWorks(s: Session, e: Event)
    requires ValidHost(s.host) && !e.ConnectedTo?
    ensures Works(s, Enqueue(s, e))
  {
    hide ValidHost, Grows;
    SameGrows(s.host);
  }

  lemma ConnectHidGrows(s: Session, psm: u32)
    requires ValidHost(s.host)
    ensures var t := ConnectHid(s, psm).0;
            t == s.(host := t.host) && Works(s, t)
  {
    hide ValidHost, Grows, ConnectChannel, ConnectedCid;
    ConnectGrows(s.host, psm, HID_SPEC);
  }

  lemma StartsWork(s: Session)
    requires ValidHost(s.host)
    ensures Works(s, StartControl(s).session) && Works(s, StartInterrupt(s).session)
  {
    hide ValidHost, Grows, ConnectHid;
    SameWorks(s);
    ConnectHidGrows(s, HID_CONTROL_PSM);
    ConnectHidGrows(s, HID_INTERRUPT_PSM);
  }

  lemma NotesWork(s: Session, cid: u16)
    requires ValidHost(s.host)
    ensures Works(s, NoteControl(s, cid)) && Works(s, NoteInterrupt(s, cid))
  {
    hide ValidHost, Grows;
    SameGrows(s.host);
  }

  lemma ChannelOpenedWorks(s: Session, psm: u32, cid: u16)
    requires ValidHost(s.host)
    ensures Works(s, OnChannelOpened(s, psm, cid).session)
  {
    NotesWork(s, cid);
    hide ValidHost, Grows, ChannelIs, StartInterrupt, NoteControl, NoteInterrupt;
    SameWorks(s);
    WorksValid(s, NoteControl(s, cid));
    StartsWork(NoteControl(s, cid));
    WorksTransitive(s, NoteControl(s, cid), StartInterrupt(NoteControl(s, cid)).session);
  }

  /** Events other than the beginning and the end of a connection only open and serve channels. */
  lemma PlainEventWorks(s: Session, e: SessionEvent)
    requires ValidHost(s.host) && Plain(EventOut(e))
    ensures Works(s, OnHostEvent(s, e).session)
  {
    hide ValidHost, OnChannelOpened, StartControl, Works;
    SameWorks(s);
    StartsWork(s);
    if e.ChannelOpened? { ChannelOpenedWorks(s, e.psm, e.cid); }
  }

  lemma HostEventGrows(s: Session, e: SessionEvent)
    requires ValidHost(s.host)
    ensures Grows(s.host, OnHostEvent(s, e).session.host)
  {
    hide ValidHost, Grows, SendAll, Quieten, OnChannelOpened, StartControl;
    SameGrows(s.host);
    match e
    case Connected(peer, handle) =>
      var open := s.(connection := Some((peer, handle)), window := Window.Connected, protocols := NO_PROTOCOLS);
      SendAllKeeps(open, Quieten(open));
    case Disconnected(_, _) =>
    case _ => PlainEventWorks(s, e);
  }

  lemma {:induction false} SendAllKeeps(s: Session, packets: seq<Sent>)
    ensures var t := SendAll(s, packets).session;
            && t == s.(budget := t.budget, sent := t.sent)
            && |s.sent| <= |t.sent| && t.sent[..|s.sent|] == s.sent
            && |t.sent| <= |s.sent| + |packets| && t.sent[|s.sent|..] == packets[..|t.sent| - |s.sent|]
    decreases |packets|
  {
    if packets != [] && s.budget > 0 {
      SendAllKeeps(Send(s, packets[0]).session, packets[1..]);
      var t, more := SendAll(s, packets).session, s.sent + [packets[0]];
      assert t.sent[..|more|] == more;
      assert t.sent[..|s.sent|] == t.sent[..|more|][..|s.sent|] && t.sent[|s.sent|] == t.sent[..|more|][|s.sent|];
      assert t.sent[|s.sent|..] == [packets[0]] + t.sent[|more|..];
    }
  }

  /** Draining keeps the host valid, and ends with an empty output unless it fails. */
  lemma {:induction false} DrainKeeps(s: Session)
    requires ValidHost(s.host)
    ensures ValidHost(Drain(s).session.host)
    ensures Drain(s).error.None? ==> Drain(s).session.host.output == []
    decreases Notices(s.host), |s.host.output|
  {
    hide ValidHost, DrainOne, Notices, Drains;
    if s.host.output != [] {
      DrainOneKeeps(s);
      if DrainOne(s).error.None? { DrainKeeps(DrainOne(s).session); }
    }
  }

  // ---------------------------------------------------------------------------
  // Controller events
  // ---------------------------------------------------------------------------

  // The classic events of one packet go to the host in order, up to the first it refuses.
  function Dispatch(s: Session, events: seq<ClassicEvent>): Reply
    requires ValidHost(s.host)
    decreases |events|
  {
    if events == [] then Drain(s)
    else
      var r := HandleEvent(s.host, events[0]);
      if r.error.Some? then Fail(s.(host := r.host), ProtocolViolation)
      else
        HandleKeeps(s.host, events[0]);
        Dispatch(s.(host := r.host), events[1..])
  }

  // Whether a window lets a connection request through, and the window it leaves.
  function Consider(w: Window, peer: Address): (Window, bool) {
    match w
    case Pairing(latched) => if latched.None? then (Pairing(Some(peer)), true) else (w, latched.value == peer)
    case Reconnecting(expected) => (w, expected == peer)
    case _ => (w, false)
  }

  // The peer a window expects to be connected to.
  function Expected(w: Window): Option<Address> {
    match w
    case Pairing(latched) => latched
    case Reconnecting(peer) => Some(peer)
    case _ => None
  }

  // A successful connection that no window expects, or not of the data link type.
  predicate Unexpected(s: Session, p: seq<byte>)
    requires |p| == 11
  {
    p[0] == 0 && (Expected(s.window) != Some(AddressAt(p, 3)) || p[9] != 1)
  }

  function OnEvent(s: Session, code: byte, p: seq<byte>): Reply
    requires ValidHost(s.host)
  {
    var events := DecodeEvent(code, p);
    if events.None? then Fail(s, ProtocolViolation)
    else if code == CONNECTION_REQUEST then
      var peer := AddressAt(p, 0);
      var (w, accepted) := if p[9] == 1 then Consider(s.window, peer) else (s.window, false);
      if !accepted then Send(s.(window := w), CommandSent(REJECT, peer + [0x0F]))
      else Dispatch(s.(window := w), events.value)
    else if code == CONNECTION_COMPLETE && Unexpected(s, p) then
      var r := Send(s, CommandSent(DISCONNECT, p[1..3] + [0x05]));
      if r.error.Some? then r else Done(r.session.(rejected := r.session.rejected + {Le16At(p, 1)}))
    else if code == CONNECTION_COMPLETE && p[0] != 0 then
      var r := EndWindow(s);
      if r.error.Some? then r
      else
        EndWindowKeeps(s);
        Dispatch(Enqueue(r.session.(activeReconnect := false), DisconnectedFrom(p[0])), events.value)
    else if code == DISCONNECTION_COMPLETE && p[0] == 0 && Le16At(p, 1) in s.rejected then
      Done(s.(rejected := s.rejected - {Le16At(p, 1)}))
    else Dispatch(s, events.value)
  }

  lemma EndWindowKeeps(s: Session)
    ensures var t := EndWindow(s).session;
            t == s.(window := t.window, budget := t.budget, sent := t.sent)
                && (t.window == Idle || t.window == s.window)
  {
    SendAllKeeps(s, Quieten(s));
  }

  // ---------------------------------------------------------------------------
  // Data
  // ---------------------------------------------------------------------------

  // A channel this side asked for is treated as opened once it is open.
  function RefreshOne(s: Session, known: Option<ProtocolChannel>, psm: u32): Reply
    requires ValidHost(s.host)
  {
    if known.Some? && !known.value.open && s.host.connection.Some?
       && known.value.cid in s.host.connection.value.channels.channels
       && s.host.connection.value.channels.channels[known.value.cid].state == Channels.Open
    then OnChannelOpened(s, psm, known.value.cid)
    else Done(s)
  }

  function Refresh(s: Session): Reply
    requires ValidHost(s.host)
  {
    var r := RefreshOne(s, s.protocols.control, HID_CONTROL_PSM);
    RefreshWorks(s, s.protocols.control, HID_CONTROL_PSM);
    if r.error.Some? then r else RefreshOne(r.session, r.session.protocols.interrupt, HID_INTERRUPT_PSM)
  }

  lemma RefreshWorks(s: Session, known: Option<ProtocolChannel>, psm: u32)
    requires ValidHost(s.host)
    ensures var t := RefreshOne(s, known, psm).session;
            Works(s, t) && ValidHost(t.host)
  {
    hide ValidHost, Works, OnChannelOpened;
    SameWorks(s);
    if known.Some? { ChannelOpenedWorks(s, psm, known.value.cid); }
    WorksValid(s, RefreshOne(s, known, psm).session);
  }

  // Who an SDU is for: an SDP server, on its own channel, or the HID bridge.
  datatype Service = Sdp(cid: u16) | Hid(channel: HidChannel)

  // Where a service's responses go; the HID bridge responds on an open control channel only.
  function ResponseCid(s: Session, service: Service): Option<u16> {
    match service
    case Sdp(cid) => Some(cid)
    case Hid(_) =>
      if s.protocols.control.Some? && s.protocols.control.value.open then Some(s.protocols.control.value.cid) else None
  }

  function Act(s: Session, service: Service, action: Action): Reply
    requires ValidHost(s.host)
  {
    match action
    case Respond(sdu) =>
      var cid := ResponseCid(s, service);
      if cid.None? then Done(s)
      else
        var r := SendChannelSdu(s.host, cid.value, sdu);
        if r.error.Some? then Fail(s.(host := r.host), ProtocolViolation) else Done(s.(host := r.host))
    case Report(payload) => Done(if service.Hid? then Enqueue(s, OutputReport(service.channel, payload)) else s)
  }

  lemma ActWorks(s: Session, service: Service, action: Action, cid: u16)
    requires ValidHost(s.host)
    ensures var t := Act(s, service, action).session;
            Works(s, t) && ValidHost(t.host) && WaitingAt(t.host, cid) == WaitingAt(s.host, cid)
  {
    hide ValidHost, Grows, SendChannelSdu, WaitingAt;
    SameWorks(s);
    match action {
      case Respond(sdu) =>
        var target := ResponseCid(s, service);
        if target.Some? {
          SendGrows(s.host, target.value, sdu);
          SendKeepsWaiting(s.host, target.value, sdu, cid);
        }
      case Report(payload) =>
        if service.Hid? { EnqueueWorks(s, OutputReport(service.channel, payload)); }
    }
    WorksValid(s, Act(s, service, action).session);
  }

  function ActAll(s: Session, service: Service, actions: seq<Action>): Reply
    requires ValidHost(s.host)
    decreases |actions|
  {
    if actions == [] then Done(s)
    else
      var r := Act(s, service, actions[0]);
      ActWorks(s, service, actions[0], 0);
      if r.error.Some? then r else ActAll(r.session, service, actions[1..])
  }

  lemma {:induction false} ActAllWorks(s: Session, service: Service, actions: seq<Action>, cid: u16)
    requires ValidHost(s.host)
    ensures var t := ActAll(s, service, actions).session;
            Works(s, t) && ValidHost(t.host) && WaitingAt(t.host, cid) == WaitingAt(s.host, cid)
    decreases |actions|
  {
    hide ValidHost, Works, Act, WaitingAt;
    SameWorks(s);
    if actions != [] {
      ActWorks(s, service, actions[0], cid);
      var r := Act(s, service, actions[0]);
      if r.error.None? {
        ActAllWorks(r.session, service, actions[1..], cid);
        WorksTransitive(s, r.session, ActAll(s, service, actions).session);
      }
    }
  }

  // The session after the first SDU of a channel was taken, and what the service does with it.
  function Taken(s: Session, cid: u16): (Session, seq<Action>) {
    (s.(host := TakeChannelSdu(s.host, cid), answers := if s.answers == [] then [] else s.answers[1..]),
     if s.answers == [] then [] else s.answers[0])
  }

  // Every SDU that waits on a channel goes to its service.
  function Serve(s: Session, service: Service, cid: u16): Reply
    requires ValidHost(s.host)
    decreases WaitingAt(s.host, cid)
  {
    if FirstSdu(s.host, cid).None? then Done(s)
    else
      var (t, actions) := Taken(s, cid);
      TakenKeeps(s, cid);
      var r := ActAll(t, service, actions);
      ActAllWorks(t, service, actions, cid);
      if r.error.Some? then r else Serve(r.session, service, cid)
  }

  lemma TakenKeeps(s: Session, cid: u16)
    requires ValidHost(s.host)
    ensures var t := Taken(s, cid).0;
            && Works(s, t) && ValidHost(t.host)
            && (FirstSdu(s.host, cid).Some? ==> WaitingAt(t.host, cid) < WaitingAt(s.host, cid))
  {
    hide ValidHost, Grows, WaitingAt, FirstSdu;
    TakeGrows(s.host, cid);
    GrowsOutput(s.host, TakeChannelSdu(s.host, cid));
    if FirstSdu(s.host, cid).Some? { TakeLeavesFewer(s.host, cid); }
  }

  lemma {:induction false} ServeWorks(s: Session, service: Service, cid: u16)
    requires ValidHost(s.host)
    ensures var t := Serve(s, service, cid).session;
            Works(s, t) && ValidHost(t.host)
    decreases WaitingAt(s.host, cid)
  {
    hide ValidHost, Works, ActAll, WaitingAt, FirstSdu, Taken;
    SameWorks(s);
    if FirstSdu(s.host, cid).Some? {
      var (t, actions) := Taken(s, cid);
      TakenKeeps(s, cid);
      ActAllWorks(t, service, actions, cid);
      var r := ActAll(t, service, actions);
      WorksTransitive(s, t, r.session);
      if r.error.None? {
        ServeWorks(r.session, service, cid);
        WorksTransitive(s, r.session, Serve(r.session, service, cid).session);
      }
    }
  }

  // The SDP servers in CID order, from `cid` on.
  function ServeSdp(s: Session, cids: set<u16>, cid: nat): Reply
    requires ValidHost(s.host) && cid <= 0x1_0000
    decreases 0x1_0000 - cid
  {
    if cid > 0xFFFF then Done(s)
    else if cid in cids then
      var r := Serve(s, Sdp(cid), cid);
      ServeWorks(s, Sdp(cid), cid);
      if r.error.Some? then r else ServeSdp(r.session, cids, cid + 1)
    else ServeSdp(s, cids, cid + 1)
  }

  lemma {:induction false} ServeSdpWorks(s: Session, cids: set<u16>, cid: nat)
    requires ValidHost(s.host) && cid <= 0x1_0000
    ensures var t := ServeSdp(s, cids, cid).session;
            Works(s, t) && ValidHost(t.host)
    decreases 0x1_0000 - cid
  {
    hide ValidHost, Works, Serve;
    SameWorks(s);
    if cid <= 0xFFFF {
      if cid in cids {
        ServeWorks(s, Sdp(cid), cid);
        var r := Serve(s, Sdp(cid), cid);
        if r.error.None? {
          ServeSdpWorks(r.session, cids, cid + 1);
          WorksTransitive(s, r.session, ServeSdp(r.session, cids, cid + 1).session);
        }
      } else {
        ServeSdpWorks(s, cids, cid + 1);
      }
    }
  }

  function ServeHid(s: Session, known: Option<ProtocolChannel>, channel: HidChannel): Reply
    requires ValidHost(s.host)
  {
    if known.Some? && known.value.open then Serve(s, Hid(channel), known.value.cid) else Done(s)
  }

  lemma ServeHidWorks(s: Session, known: Option<ProtocolChannel>, channel: HidChannel)
    requires ValidHost(s.host)
    ensures var t := ServeHid(s, known, channel).session;
            Works(s, t) && ValidHost(t.host)
  {
    hide ValidHost, Works, Serve;
    SameWorks(s);
    if known.Some? && known.value.open { ServeWorks(s, Hid(channel), known.value.cid); }
  }

  // Everything that arrived goes to the services.
  function ServeAll(s: Session): Reply
    requires ValidHost(s.host)
  {
    var a := ServeSdp(s, s.protocols.sdp, 0);
    ServeSdpWorks(s, s.protocols.sdp, 0);
    if a.error.Some? then a
    else
      var control, interrupt := a.session.protocols.control, a.session.protocols.interrupt;
      var b := ServeHid(a.session, control, Control);
      ServeHidWorks(a.session, control, Control);
      if b.error.Some? then b else ServeHid(b.session, interrupt, Interrupt)
  }

  lemma ServeAllWorks(s: Session)
    requires ValidHost(s.host)
    ensures var t := ServeAll(s).session;
            Works(s, t) && ValidHost(t.host)
  {
    hide ValidHost, Works, ServeSdp, ServeHid;
    var a := ServeSdp(s, s.protocols.sdp, 0);
    ServeSdpWorks(s, s.protocols.sdp, 0);
    if a.error.None? {
      var control, interrupt := a.session.protocols.control, a.session.protocols.interrupt;
      var b := ServeHid(a.session, control, Control);
      ServeHidWorks(a.session, control, Control);
      WorksTransitive(s, a.session, b.session);
      if b.error.None? {
        ServeHidWorks(b.session, interrupt, Interrupt);
        WorksTransitive(s, b.session, ServeAll(s).session);
      }
    }
  }

  lemma RefreshAllWorks(s: Session)
    requires ValidHost(s.host)
    ensures var t := Refresh(s).session;
            Works(s, t) && ValidHost(t.host)
  {
    hide ValidHost, Works, RefreshOne;
    var r := RefreshOne(s, s.protocols.control, HID_CONTROL_PSM);
    RefreshWorks(s, s.protocols.control, HID_CONTROL_PSM);
    if r.error.None? {
      RefreshWorks(r.session, r.session.protocols.interrupt, HID_INTERRUPT_PSM);
      WorksTransitive(s, r.session, Refresh(s).session);
    }
  }

  function OnAcl(s: Session, packet: Hci.AclPacket): Reply
    requires ValidHost(s.host)
  {
    var r := ProcessAcl(s.host, packet);
    ProcessAclKeeps(s.host, packet);
    if r.error.Some? then Fail(s.(host := r.host), ProtocolViolation) else AfterAcl(s.(host := r.host))
  }

  // What the host put out, then the channels and the services, then what those made the host put out.
  function AfterAcl(s: Session): Reply
    requires ValidHost(s.host)
  {
    var a := Drain(s);
    DrainKeeps(s);
    if a.error.Some? then a
    else
      var b := Refresh(a.session);
      RefreshAllWorks(a.session);
      if b.error.Some? then b
      else
        var c := ServeAll(b.session);
        ServeAllWorks(b.session);
        if c.error.Some? then c else Drain(c.session)
  }

  // ---------------------------------------------------------------------------
  // The application's calls
  // ---------------------------------------------------------------------------

  function StartPairing(s: Session): Reply {
    match s.window
    case Pairing(_) => Done(s)
    case Idle =>
      var r := SendAll(s, [Scan(false, true), Inquiry(s), Scan(true, true)]);
      if r.error.Some? then r else Done(r.session.(activeReconnect := false, window := Pairing(None)))
    case _ => Fail(s, SendRejected)
  }

  // The only bond there is.
  function SoleBond(bonds: map<Address, Bond>): Option<Address> {
    if exists p <- bonds :: bonds.Keys == {p} then
      var p :| p in bonds && bonds.Keys == {p};
      Some(p)
    else None
  }

  function StartReconnect(s: Session): Reply {
    match s.window
    case Reconnecting(_) => Done(s)
    case Idle =>
      var bond := SoleBond(s.host.bonds);
      if bond.None? then Fail(s, if |s.host.bonds| == 0 then NoBond else InvalidBondStore)
      else
        var r := SendAll(s, [Scan(false, true), Inquiry(s), Scan(false, true),
                             CommandSent(0x0405, bond.value + [0, 0, 0, 0, 0, 0, 1])]);
        if r.error.Some? then r else Done(r.session.(activeReconnect := true, window := Reconnecting(bond.value)))
    case _ => Fail(s, SendRejected)
  }

  // An input report, as the HID bridge encodes it for the peer; an error of the adapter is not final here.
  function SendReport(s: Session, encoded: Option<seq<byte>>): Reply
    requires ValidHost(s.host)
  {
    var known := s.protocols.interrupt;
    if known.None? || !known.value.open || encoded.None? then Fail(s, SendRejected)
    else
      var r := SendChannelSdu(s.host, known.value.cid, encoded.value);
      SendGrows(s.host, known.value.cid, encoded.value);
      if r.error.Some? then Fail(s.(host := r.host), SendRejected) else Drain(s.(host := r.host))
  }

  function Hangup(s: Session): Reply {
    var idle := s.(protocols := NO_PROTOCOLS, activeReconnect := false, connection := None);
    if s.connection.None? then EndWindow(idle)
    else
      var r := Send(idle, CommandSent(DISCONNECT, Le16(s.connection.value.1) + [0x13]));
      if r.error.Some? then r else EndWindow(r.session)
  }

  function Close(s: Session): Session {
    s.(closed := true, connection := None, rejected := {}, window := Idle, protocols := NO_PROTOCOLS,
       activeReconnect := false, events := [])
  }

  // The calls, and what reception brings during a call to `poll` or `drain_interrupt`: packets, or a failure.
  datatype Move =
    | Pair
    | Reconnect
    | HangUp
    | Shut
    | SendInterrupt(encoded: Option<seq<byte>>)
    | Controller(code: byte, parameters: seq<byte>)
    | Data(packet: Hci.AclPacket)
    | ReceptionFails(kind: ErrorKind)
    | TakeEvents

  // How many packets the adapter takes during a move, and what the services do with the SDUs they are handed.
  datatype Outside = Outside(budget: nat, answers: seq<seq<Action>>)

  // A call or a packet. An error while receiving or handling a packet is final.
  function Perform(s: Session, move: Move, o: Outside): Reply
    requires ValidHost(s.host)
  {
    var t := s.(budget := o.budget, answers := o.answers);
    if move.Shut? then Done(if s.closed then s else Close(s))
    else if s.closed then Fail(s, ErrorKind.Closed)
    else if s.terminal.Some? then Fail(s, s.terminal.value)
    else
      match move
      case Pair => StartPairing(t)
      case Reconnect => StartReconnect(t)
      case HangUp => Hangup(t)
      case SendInterrupt(encoded) => SendReport(t, encoded)
      case TakeEvents => Done(s.(events := []))
      case Controller(code, p) => Recorded(OnEvent(t, code, p))
      case Data(packet) => Recorded(OnAcl(t, packet))
      case ReceptionFails(kind) => Recorded(Fail(s, kind))
      case Shut => Done(s)
  }

  function Recorded(r: Reply): Reply {
    if r.error.Some? then r.(session := r.session.(terminal := r.error)) else Reply(r.session, r.session.terminal)
  }
}
