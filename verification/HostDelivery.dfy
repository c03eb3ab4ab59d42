/**
  * Two hosts joined by their controllers: channel PDUs are encoded, cut into ACL
  * packets, released as credits allow, carried in order, reassembled, decoded and
  * dispatched. The hosts deliver exactly what two managers joined by FIFO queues do.
  */
module HostDelivery {
  import opened Bytes
  import opened Signaling
  import opened Hci
  import Channels
  import AclFlow
  import HM = HandshakeMessages
  import H = Handshake
  import HS = HandshakeSafety
  import CQ = ChannelQueue
  import opened Host

  // ---------------------------------------------------------------------------
  // The system
  // ---------------------------------------------------------------------------

  // A host, the packets its controller has taken from it and not yet delivered, and its application's history.
  datatype Node = Node(
    host: Host, air: seq<AclPacket>, sent: map<u16, seq<seq<byte>>>, taken: map<u16, seq<seq<byte>>>)

  datatype Act =
    | Register(psm: u32, spec: Channels.ChannelSpec)
    | ConnectTo(psm: u32, spec: Channels.ChannelSpec)
    | SendSdu(cid: u16, sdu: seq<byte>)
    | TakeReceived(cid: u16)
    | Notify(event: ClassicEvent)
    | Emit
    | Arrive

  // Basic mode, PSMs the wire carries, and no connection or disconnection in the middle.
  predicate Legal(act: Act) {
    match act
    case Register(_, spec) => spec.Basic?
    case ConnectTo(psm, spec) => spec.Basic? && psm <= 0xFFFF
    case Notify(e) => !e.DisconnectionComplete? && (e.ConnectionComplete? ==> e.status != 0)
    case _ => true
  }

  // A packet as the receiving controller hands it over: under its own handle, starts marked as such.
  function Carry(p: AclPacket, handle: u16): AclPacket {
    p.(handle := handle, boundary := if p.boundary == CONTINUATION then CONTINUATION else 2)
  }

  predicate Up(s: Node) { s.host.connection.Some? && ValidHost(s.host) }

  function Perform(s: Node, t: Node, act: Act): (Node, Node)
    requires Up(s) && Up(t)
  {
    match act
    case Register(psm, spec) => (s.(host := RegisterServer(s.host, psm, spec).host), t)
    case ConnectTo(psm, spec) => (s.(host := ConnectChannel(s.host, psm, spec).host), t)
    case SendSdu(cid, sdu) =>
      var r := SendChannelSdu(s.host, cid, sdu);
      (s.(host := r.host, sent := if r.error.None? then H.Log(s.sent, cid, sdu) else s.sent), t)
    case TakeReceived(cid) =>
      var channels := s.host.connection.value.channels.channels;
      if cid !in channels || channels[cid].received == [] then (s, t)
      else (s.(host := TakeChannelSdu(s.host, cid), taken := H.Log(s.taken, cid, channels[cid].received[0])), t)
    case Notify(e) => (s.(host := HandleEvent(s.host, e).host), t)
    case Emit =>
      if s.host.output == [] then (s, t)
      else
        var out := s.host.output[0];
        (s.(host := PopOutput(s.host), air := s.air + (if out.AclOut? then [out.packet] else [])), t)
    case Arrive =>
      if s.air == [] then (s, t)
      else
        (s.(air := s.air[1..]),
         t.(host := ProcessAcl(t.host, Carry(s.air[0], t.host.connection.value.handle)).host))
  }

  // ---------------------------------------------------------------------------
  // The pipeline from one host to the other
  // ---------------------------------------------------------------------------

  function Acls(output: seq<HostOutput>): seq<AclPacket> {
    if output == [] then [] else (if output[0].AclOut? then [output[0].packet] else []) + Acls(output[1..])
  }

  // A host's packets that have not arrived, in order: in the air, in the output, waiting for credits.
  function Flight(s: Node): seq<AclPacket> { s.air + Acls(s.host.output) + s.host.flow.queued }

  function CarryAll(packets: seq<AclPacket>, handle: u16): seq<AclPacket> {
    seq(|packets|, i requires 0 <= i < |packets| => Carry(packets[i], handle))
  }

  function EncodeAll(pdus: seq<Pdu>): seq<seq<byte>> { seq(|pdus|, i requires 0 <= i < |pdus| => EncodePdu(pdus[i])) }

  // Fed to an assembler with this pending, the packets give exactly these PDUs and leave nothing.
  predicate Carries(pending: Option<Pending>, packets: seq<AclPacket>, pdus: seq<Pdu>) {
    var (last, replies) := FeedHandle(pending, packets);
    last.None? && NoErrors(replies) && Emitted(replies) == EncodeAll(pdus)
  }

  function Cuts(size: nat, pdus: seq<Pdu>, first: byte): seq<Cut> {
    seq(|pdus|, i requires 0 <= i < |pdus| => Cut(EncodePdu(pdus[i]), size, first))
  }

  lemma CutsAreValid(size: nat, pdus: seq<Pdu>, first: byte)
    requires HM.Fits(pdus) && size >= 4 && first != CONTINUATION
    ensures ValidCuts(Cuts(size, pdus, first)) && Pdus(Cuts(size, pdus, first)) == EncodeAll(pdus)
  {
    forall i | 0 <= i < |pdus| ensures ValidCut(Cuts(size, pdus, first)[i]) {
      var data, n: u16 := EncodePdu(pdus[i]), |pdus[i].payload|;
      assert data[0] == n % 0x100 && data[1] == n / 0x100;
    }
  }

  /** Every PDU that fits its header is cut, and none is left over. */
  lemma {:induction false} FragmentAllIsStream(handle: u16, size: nat, pdus: seq<Pdu>)
    requires HM.Fits(pdus) && 4 <= size <= 0xFFFF && handle <= HANDLE_MAX
    ensures ValidCuts(Cuts(size, pdus, 0))
    ensures FragmentAll(handle, size, pdus) == (Stream(handle, 0, Cuts(size, pdus, 0)), None)
    decreases |pdus|
  {
    CutsAreValid(size, pdus, 0);
    if pdus != [] {
      hide EncodePdu, Fragments;
      var cuts := Cuts(size, pdus, 0);
      assert ValidCut(cuts[0]);
      FragmentAllIsStream(handle, size, pdus[1..]);
      assert cuts[1..] == Cuts(size, pdus[1..], 0);
    }
  }

  lemma {:induction false} ContinuationsCarried(handle: u16, to: u16, size: nat, data: seq<byte>)
    requires size > 0
    ensures CarryAll(Continuations(handle, 0, size, data), to) == Continuations(to, 0, size, data)
    decreases |data|
  {
    if data != [] {
      var n := Min(size, |data|);
      ContinuationsCarried(handle, to, size, data[n..]);
      var packets := Continuations(handle, 0, size, data);
      assert packets[1..] == Continuations(handle, 0, size, data[n..]);
      assert CarryAll(packets, to) == [Carry(packets[0], to)] + CarryAll(packets[1..], to);
    }
  }

  lemma FragmentsCarried(handle: u16, to: u16, size: nat, pdu: seq<byte>)
    requires size > 0
    ensures CarryAll(Fragments(handle, 0, size, pdu, 0), to) == Fragments(to, 0, size, pdu, 2)
  {
    var n := Min(size, |pdu|);
    ContinuationsCarried(handle, to, size, pdu[n..]);
    var packets := Fragments(handle, 0, size, pdu, 0);
    assert packets[1..] == Continuations(handle, 0, size, pdu[n..]);
    assert CarryAll(packets, to) == [Carry(packets[0], to)] + CarryAll(packets[1..], to);
  }

  lemma CarryAppend(a: seq<AclPacket>, b: seq<AclPacket>, to: u16)
    ensures CarryAll(a + b, to) == CarryAll(a, to) + CarryAll(b, to)
  {
  }

  lemma {:induction false} StreamCarried(handle: u16, to: u16, size: nat, pdus: seq<Pdu>)
    requires HM.Fits(pdus) && size >= 4
    ensures ValidCuts(Cuts(size, pdus, 0)) && ValidCuts(Cuts(size, pdus, 2))
    ensures CarryAll(Stream(handle, 0, Cuts(size, pdus, 0)), to) == Stream(to, 0, Cuts(size, pdus, 2))
    decreases |pdus|
  {
    CutsAreValid(size, pdus, 0);
    CutsAreValid(size, pdus, 2);
    if pdus != [] {
      hide EncodePdu, Fragments, ValidCut, CarryAll;
      var a, b := Cuts(size, pdus, 0), Cuts(size, pdus, 2);
      StreamCarried(handle, to, size, pdus[1..]);
      assert a[1..] == Cuts(size, pdus[1..], 0) && b[1..] == Cuts(size, pdus[1..], 2);
      FragmentsCarried(handle, to, size, EncodePdu(pdus[0]));
      CarryAppend(Fragments(handle, 0, size, EncodePdu(pdus[0]), 0), Stream(handle, 0, a[1..]), to);
    } else {
      assert CarryAll([], to) == [];
    }
  }

  /** PDUs cut behind the packets on their way arrive after them. */
  lemma CarriesMore(pending: Option<Pending>, packets: seq<AclPacket>, pdus: seq<Pdu>, to: u16, size: nat,
                    more: seq<Pdu>)
    requires Carries(pending, packets, pdus) && HM.Fits(more) && size >= 4
    ensures ValidCuts(Cuts(size, more, 2))
    ensures Carries(pending, packets + Stream(to, 0, Cuts(size, more, 2)), pdus + more)
  {
    CutsAreValid(size, more, 2);
    hide FeedHandle, Emitted, Stream, Cuts, EncodeAll;
    var stream := Stream(to, 0, Cuts(size, more, 2));
    StreamReassembles(to, 0, Cuts(size, more, 2));
    FeedHandleAppend(pending, packets, stream);
    EmittedAppend(FeedHandle(pending, packets).1, FeedHandle(None, stream).1);
    EncodeAppend(pdus, more);
  }

  lemma EncodeAppend(a: seq<Pdu>, b: seq<Pdu>)
    ensures EncodeAll(a + b) == EncodeAll(a) + EncodeAll(b)
  {
    hide EncodePdu;
  }

  /** A packet that arrives either completes the first PDU or is kept; it is never an error. */
  lemma CarriesNext(pending: Option<Pending>, packets: seq<AclPacket>, pdus: seq<Pdu>)
    requires Carries(pending, packets, pdus) && packets != []
    ensures var (after, reply) := FeedOne(pending, packets[0]);
            && reply.Success?
            && (reply.value.None? ==> Carries(after, packets[1..], pdus))
            && (reply.value.Some? ==>
                  pdus != [] && reply.value.value == EncodePdu(pdus[0]) && Carries(after, packets[1..], pdus[1..]))
  {
    hide FeedOne, EncodePdu;
    var (after, reply) := FeedOne(pending, packets[0]);
    var (last, rest) := FeedHandle(after, packets[1..]);
    var replies := FeedHandle(pending, packets).1;
    assert replies[0] == reply && replies[1..] == rest;
    assert reply.Success?;
    forall i | 0 <= i < |rest| ensures rest[i].Success? { assert rest[i] == replies[i + 1]; }
    if reply.value.Some? {
      assert EncodeAll(pdus)[0] == EncodePdu(pdus[0]) && EncodeAll(pdus)[1..] == EncodeAll(pdus[1..]);
      assert Emitted(replies)[1..] == Emitted(rest);
    }
  }

  // ---------------------------------------------------------------------------
  // Steps of the pipeline
  // ---------------------------------------------------------------------------

  lemma {:induction false} AclsAppend(a: seq<HostOutput>, b: seq<HostOutput>)
    ensures Acls(a + b) == Acls(a) + Acls(b)
  {
    if a == [] {
      assert a + b == b;
    } else {
      var whole, head := a + b, if a[0].AclOut? then [a[0].packet] else [];
      assert whole[0] == a[0] && whole[1..] == a[1..] + b;
      AclsAppend(a[1..], b);
      assert head + (Acls(a[1..]) + Acls(b)) == head + Acls(a[1..]) + Acls(b);
    }
  }

  lemma {:induction false} AclsOfOuts(packets: seq<AclPacket>)
    ensures Acls(AclOuts(packets)) == packets
  {
    if packets != [] {
      var outs := AclOuts(packets);
      assert outs[1..] == AclOuts(packets[1..]);
      AclsOfOuts(packets[1..]);
    }
  }

  // Output that carries no packet.
  predicate Silent(output: seq<HostOutput>) { forall i :: 0 <= i < |output| ==> !output[i].AclOut? }

  lemma {:induction false} SilentAcls(output: seq<HostOutput>)
    requires Silent(output)
    ensures Acls(output) == []
  {
    if output != [] { SilentAcls(output[1..]); }
  }

  lemma {:induction false} OpenedIsSilent(m: Channels.Manager, cids: seq<u16>)
    ensures Silent(OpenedEvents(m, cids))
    decreases |cids|
  {
    if cids != [] { OpenedIsSilent(m, cids[1..]); }
  }

  // A host's packets on this side of the controller.
  function Outgoing(h: Host): seq<AclPacket> { Acls(h.output) + h.flow.queued }

  /** Releasing packets does not change which are on their way, nor their order. */
  lemma FlushKeepsFlight(h: Host)
    requires AclFlow.Valid(h.flow)
    ensures var g := FlushFlow(h);
            && Outgoing(g) == Outgoing(h) && AclFlow.Valid(g.flow) && AclFlow.Settled(g.flow)
            && g.flow.payloadSize == h.flow.payloadSize && g == h.(flow := g.flow, output := g.output)
  {
    hide AclFlow.Flush, AclFlow.Valid, Acls, AclOuts;
    AclFlow.FlushConserves(h.flow);
    var (f, out) := AclFlow.Flush(h.flow);
    AclsAppend(h.output, AclOuts(out));
    AclsOfOuts(out);
    Regroup(Acls(h.output), out, f.queued);
  }

  // What the end-to-end theorem asks of a connected host.
  predicate Ready(h: Host) {
    && h.connection.Some? && h.connection.value.handle <= HANDLE_MAX
    && AclFlow.Valid(h.flow) && AclFlow.Settled(h.flow) && ValidAssembler(h.pending)
       && 4 <= h.flow.payloadSize <= 0xFFFF
  }

  /** Flushing the channels sends every queued PDU, behind everything already on its way. */
  lemma FlushSends(h: Host)
    requires Ready(h) && HM.Fits(h.connection.value.channels.outbound)
    ensures var r, c, size := FlushChannels(h), h.connection.value, h.flow.payloadSize;
            && r.error.None? && Ready(r.host)
            && r.host == h.(connection := r.host.connection, flow := r.host.flow, output := r.host.output)
            && r.host.connection == Some(c.(channels := c.channels.(outbound := [], accepted := [])))
            && ValidCuts(Cuts(size, c.channels.outbound, 0))
            && r.host.flow.payloadSize == size
            && Outgoing(r.host) == Outgoing(h) + Stream(c.handle, 0, Cuts(size, c.channels.outbound, 0))
  {
    hide Stream, FragmentAll, AclFlow.Valid, FlushFlow, OpenedEvents;
    var c, size := h.connection.value, h.flow.payloadSize;
    FragmentAllIsStream(c.handle, size, c.channels.outbound);
    var packets := Stream(c.handle, 0, Cuts(size, c.channels.outbound, 0));
    var g := h.(connection := Some(c.(channels := c.channels.(outbound := [], accepted := []))),
                flow := AclFlow.Enqueue(h.flow, packets));
    assert AclFlow.Valid(g.flow) by { AclFlow.SameCredits(h.flow, g.flow); }
    FlushKeepsFlight(g);
    var f, events := FlushFlow(g), OpenedEvents(c.channels, c.channels.accepted);
    AclsAppend(f.output, events);
    OpenedIsSilent(c.channels, c.channels.accepted);
    SilentAcls(events);
    assert Acls(f.output) + [] == Acls(f.output);
    assert Acls(h.output) + (h.flow.queued + packets) == Acls(h.output) + h.flow.queued + packets;
  }

  // ---------------------------------------------------------------------------
  // The invariant
  // ---------------------------------------------------------------------------

  // The side of the two-manager system that a node implements, when these PDUs of it are on their way.
  function Abstract(s: Node, pdus: seq<Pdu>): H.Side
    requires s.host.connection.Some?
  {
    H.Side(CQ.Behind(pdus, s.host.connection.value.channels), s.sent, s.taken)
  }

  // The packets from `s` that have not arrived at `t` carry these PDUs.
  predicate Pipe(s: Node, t: Node, pdus: seq<Pdu>)
    requires t.host.connection.Some?
  {
    var handle := t.host.connection.value.handle;
    Carries(PendingAt(t.host.pending, handle), CarryAll(Flight(s), handle), pdus)
  }

  predicate AtRest(s: Node) { Ready(s.host) && s.host.connection.value.channels.outbound == [] }

  ghost predicate Inv(s: Node, t: Node, a: seq<Pdu>, b: seq<Pdu>, links: map<u16, u16>, others: map<u16, u16>) {
    && AtRest(s) && AtRest(t) && Pipe(s, t, a) && Pipe(t, s, b)
    && HS.Inv(Abstract(s, a), Abstract(t, b), links, others)
  }

  lemma InvUp(s: Node, t: Node, a: seq<Pdu>, b: seq<Pdu>, links: map<u16, u16>, others: map<u16, u16>)
    requires Inv(s, t, a, b, links, others)
    ensures Up(s) && Up(t)
    ensures HM.BasicManager(s.host.connection.value.channels) && HM.BasicManager(t.host.connection.value.channels)
    ensures HM.Fits(a) && HM.Fits(b)
  {
    hide HS.Pairs;
    HS.InvBasic(Abstract(s, a), Abstract(t, b), links, others);
    assert a + [] == a && b + [] == b;
  }

  /** A side whose new PDUs went on their way stands for the manager that queued them. */
  lemma Absorb(s: Node, h: Host, a: seq<Pdu>, m: Channels.Manager, sent: map<u16, seq<seq<byte>>>, T: H.Side,
               links: map<u16, u16>, others: map<u16, u16>)
    requires HS.Inv(H.Side(CQ.Behind(a, m), sent, s.taken), T, links, others)
    requires h.connection.Some? && h.connection.value.channels == m.(outbound := [], accepted := [])
    ensures HS.Inv(Abstract(s.(host := h, sent := sent), a + m.outbound), T, links, others)
  {
    hide HS.Inv;
    var S := H.Side(CQ.Behind(a, m), sent, s.taken);
    HS.InvServers(S, T, links, others);
    assert a + m.outbound + [] == a + m.outbound;
    HS.SameKeeps(S, T, links, others, CQ.Behind(a + m.outbound, h.connection.value.channels));
  }

  /** The PDUs a flush sends are on their way to the peer. */
  lemma FlushPipes(s: Node, t: Node, a: seq<Pdu>, h: Host, sent: map<u16, seq<seq<byte>>>)
    requires Ready(h) && t.host.connection.Some? && HM.Fits(h.connection.value.channels.outbound)
    requires Pipe(s, t, a) && Outgoing(h) == Outgoing(s.host)
    ensures FlushChannels(h).error.None?
    ensures Pipe(s.(host := FlushChannels(h).host, sent := sent), t, a + h.connection.value.channels.outbound)
  {
    FlushSends(h);
    hide Carries, Stream, CarryAll, FlushChannels, Cuts;
    var r, c, size := FlushChannels(h), h.connection.value, h.flow.payloadSize;
    var more, to := c.channels.outbound, t.host.connection.value.handle;
    var stream := Stream(c.handle, 0, Cuts(size, more, 0));
    var s' := s.(host := r.host, sent := sent);
    assert Flight(s') == s.air + Outgoing(r.host) == s.air + Outgoing(s.host) + stream == Flight(s) + stream by {
      Regroup(s.air, Acls(r.host.output), r.host.flow.queued);
      Regroup(s.air, Outgoing(s.host), stream);
      Regroup(s.air, Acls(s.host.output), s.host.flow.queued);
    }
    CarryAppend(Flight(s), stream, to);
    StreamCarried(c.handle, to, size, more);
    CarriesMore(PendingAt(t.host.pending, to), CarryAll(Flight(s), to), a, to, size, more);
  }

  lemma Regroup(a: seq<AclPacket>, b: seq<AclPacket>, c: seq<AclPacket>)
    ensures a + (b + c) == a + b + c
  {
  }

  // ---------------------------------------------------------------------------
  // Every act keeps the invariant
  // ---------------------------------------------------------------------------

  lemma FitsSuffix(a: seq<Pdu>, b: seq<Pdu>)
    requires HM.Fits(a + b)
    ensures HM.Fits(b)
  {
    forall i | 0 <= i < |b| ensures |b[i].payload| <= 0xFFFF { assert (a + b)[|a| + i] == b[i]; }
  }

  lemma InvFits(S: H.Side, T: H.Side, links: map<u16, u16>, others: map<u16, u16>)
    requires HS.Inv(S, T, links, others)
    ensures HM.Fits(S.manager.outbound) && HM.Fits(T.manager.outbound)
  {
    hide HS.Pairs;
  }

  /** A call that made the manager `m` of the manager of `s`, and the flush behind it. */
  lemma CallKeeps(s: Node, t: Node, a: seq<Pdu>, b: seq<Pdu>, links: map<u16, u16>, others: map<u16, u16>,
                  m: Channels.Manager, sent: map<u16, seq<seq<byte>>>)
    requires Inv(s, t, a, b, links, others)
    requires HS.Inv(H.Side(CQ.Behind(a, m), sent, s.taken), Abstract(t, b), links, others)
    ensures var r := FlushChannels(WithChannels(s.host, m));
            r.error.None? && Inv(s.(host := r.host, sent := sent), t, a + m.outbound, b, links, others)
  {
    hide HS.Inv, Carries, FlushChannels, Stream, CQ.Behind;
    var h := WithChannels(s.host, m);
    assert HM.Fits(m.outbound) by {
      InvFits(H.Side(CQ.Behind(a, m), sent, s.taken), Abstract(t, b), links, others);
      BehindFits(a, m);
    }
    FlushSends(h);
    FlushPipes(s, t, a, h, sent);
    Absorb(s, FlushChannels(h).host, a, m, sent, Abstract(t, b), links, others);
  }

  lemma BehindFits(a: seq<Pdu>, m: Channels.Manager)
    requires HM.Fits(CQ.Behind(a, m).outbound)
    ensures HM.Fits(m.outbound)
  {
    FitsSuffix(a, m.outbound);
  }

  lemma SendKeeps(s: Node, t: Node, a: seq<Pdu>, b: seq<Pdu>, links: map<u16, u16>, others: map<u16, u16>,
                  cid: u16, sdu: seq<byte>) returns (a': seq<Pdu>)
    requires Inv(s, t, a, b, links, others) && ValidHost(s.host)
    ensures var r := SendChannelSdu(s.host, cid, sdu);
            Inv(s.(host := r.host, sent := if r.error.None? then H.Log(s.sent, cid, sdu) else s.sent), t, a', b, links,
                others)
  {
    InvUp(s, t, a, b, links, others);
    var S, T, m := Abstract(s, a), Abstract(t, b), s.host.connection.value.channels;
    HS.InvBasic(S, T, links, others);
    HS.SendKeeps(S, T, links, others, cid, sdu);
    CQ.SendBehind(a, m, cid, sdu);
    HM.SendEffect(m, cid, sdu);
    hide HS.Inv, FlushChannels, Channels.Send, Pipe, HM.Effect, HM.BasicManager, H.Log, Inv;
    var r := Channels.Send(m, cid, sdu);
    a' := a;
    if r.error.None? {
      a' := a + r.manager.outbound;
      CallKeeps(s, t, a, b, links, others, r.manager, H.Log(s.sent, cid, sdu));
    } else {
      assert WithChannels(s.host, m) == s.host;
    }
  }

  lemma ConnectKeeps(s: Node, t: Node, a: seq<Pdu>, b: seq<Pdu>, links: map<u16, u16>, others: map<u16, u16>,
                     psm: u32, spec: Channels.ChannelSpec) returns (a': seq<Pdu>)
    requires Inv(s, t, a, b, links, others) && spec.Basic? && psm <= 0xFFFF
    ensures Inv(s.(host := ConnectChannel(s.host, psm, spec).host), t, a', b, links, others)
  {
    var S, T, m := Abstract(s, a), Abstract(t, b), s.host.connection.value.channels;
    hide HS.Inv, FlushChannels, Channels.Connect, Pipe;
    HS.ConnectKeeps(S, T, links, others, psm, spec);
    CQ.ConnectBehind(a, m, psm, spec);
    hide Inv;
    var (n, r) := Channels.Connect(m, psm, spec);
    a' := a;
    if r.Success? {
      a' := a + n.outbound;
      CallKeeps(s, t, a, b, links, others, n, s.sent);
    }
  }

  /** An act that leaves the pipelines and the channels of `s` alone. */
  lemma QuietKeeps(s: Node, t: Node, a: seq<Pdu>, b: seq<Pdu>, links: map<u16, u16>, others: map<u16, u16>, s': Node)
    requires Inv(s, t, a, b, links, others)
    requires Ready(s'.host) && Flight(s') == Flight(s) && s'.host.pending == s.host.pending
    requires s'.host.connection.value.handle == s.host.connection.value.handle
    requires s'.host.connection.value.channels.outbound == []
    requires HS.Inv(Abstract(s', a), Abstract(t, b), links, others)
    ensures Inv(s', t, a, b, links, others)
  {
    hide HS.Inv, Carries, Flight;
  }

  lemma RegisterKeeps(s: Node, t: Node, a: seq<Pdu>, b: seq<Pdu>, links: map<u16, u16>, others: map<u16, u16>,
                      psm: u32, spec: Channels.ChannelSpec)
    requires Inv(s, t, a, b, links, others) && spec.Basic?
    ensures Inv(s.(host := RegisterServer(s.host, psm, spec).host), t, a, b, links, others)
  {
    hide HS.Inv, Pipe, CQ.Behind, Channels.RegisterServer, Channels.PopReceived, Flight;
    HS.RegisterKeeps(Abstract(s, a), Abstract(t, b), links, others, Some(psm), spec, 0);
    CQ.CallsBehind(a, s.host.connection.value.channels, Some(psm), spec, 0);
    BehindFields(a, s.host.connection.value.channels);
    hide Ready;
    var s' := s.(host := RegisterServer(s.host, psm, spec).host);
    assert Flight(s') == Flight(s) by { SameFlight(s, s'); }
    assert Ready(s'.host) by { SameReady(s.host, s'.host); }
    QuietKeeps(s, t, a, b, links, others, s');
  }

  lemma BehindFields(a: seq<Pdu>, m: Channels.Manager)
    ensures CQ.Behind(a, m).channels == m.channels && CQ.Behind(a, m).servers == m.servers
    ensures CQ.Behind(a, m).outbound == a + m.outbound
  {
  }

  lemma SameFlight(s: Node, s': Node)
    requires s'.air == s.air && s'.host.output == s.host.output && s'.host.flow.queued == s.host.flow.queued
    ensures Flight(s') == Flight(s)
  {
  }

  lemma ReadyConnected(h: Host)
    requires Ready(h)
    ensures h.connection.Some?
  {
  }

  lemma SameReady(h: Host, g: Host)
    requires Ready(h) && g.flow == h.flow && g.pending == h.pending && g.connection.Some?
    requires g.connection.value.handle == h.connection.value.handle
    ensures Ready(g)
  {
  }

  lemma TakeKeeps(s: Node, t: Node, a: seq<Pdu>, b: seq<Pdu>, links: map<u16, u16>, others: map<u16, u16>, cid: u16)
    requires Inv(s, t, a, b, links, others)
    requires cid in s.host.connection.value.channels.channels
             && s.host.connection.value.channels.channels[cid].received != []
    ensures var sdu := s.host.connection.value.channels.channels[cid].received[0];
            Inv(s.(host := TakeChannelSdu(s.host, cid), taken := H.Log(s.taken, cid, sdu)), t, a, b, links, others)
  {
    hide HS.Inv, Pipe, H.Log, CQ.Behind, Channels.PopReceived, Channels.RegisterServer, Flight;
    BehindFields(a, s.host.connection.value.channels);
    HS.TakeKeeps(Abstract(s, a), Abstract(t, b), links, others, cid);
    CQ.CallsBehind(a, s.host.connection.value.channels, None, Channels.Basic(0), cid);
    var sdu := s.host.connection.value.channels.channels[cid].received[0];
    hide Ready;
    var s' := s.(host := TakeChannelSdu(s.host, cid), taken := H.Log(s.taken, cid, sdu));
    assert Flight(s') == Flight(s) by { SameFlight(s, s'); }
    assert Ready(s'.host) by { SameReady(s.host, s'.host); }
    QuietKeeps(s, t, a, b, links, others, s');
  }

  // The node after its controller took the first output.
  function Emitting(s: Node): Node
    requires s.host.output != []
  {
    var out := s.host.output[0];
    s.(host := PopOutput(s.host), air := s.air + (if out.AclOut? then [out.packet] else []))
  }

  lemma EmitFlight(s: Node)
    requires s.host.output != []
    ensures Flight(Emitting(s)) == Flight(s)
  {
    var out, rest := s.host.output[0], s.host.output[1..];
    Regroup(s.air, if out.AclOut? then [out.packet] else [], Acls(rest));
  }

  lemma EmitKeeps(s: Node, t: Node, a: seq<Pdu>, b: seq<Pdu>, links: map<u16, u16>, others: map<u16, u16>)
    requires Inv(s, t, a, b, links, others) && s.host.output != []
    ensures Inv(Emitting(s), t, a, b, links, others)
  {
    hide HS.Inv, Pipe, Flight, Ready;
    EmitFlight(s);
    assert s.host.connection.Some? by { ReadyConnected(s.host); }
    assert Ready(Emitting(s).host) by { SameReady(s.host, Emitting(s).host); }
    QuietKeeps(s, t, a, b, links, others, Emitting(s));
  }

  /** Events other than connection and disconnection, and completed packets apart, only add silent output. */
  lemma NotifyOutput(h: Host, e: ClassicEvent) returns (more: seq<HostOutput>)
    requires Ready(h) && Legal(Notify(e)) && !e.NumberOfCompletedPackets?
    ensures var g := HandleEvent(h, e).host;
            && g.output == h.output + more && Silent(more)
            && g.flow == h.flow && g.pending == h.pending && g.connection.Some?
            && g.connection.value.handle == h.connection.value.handle
            && g.connection.value.channels == h.connection.value.channels
  {
    hide AclFlow.Valid, OnCompleted, ValidAssembler;
    var g := HandleEvent(h, e).host;
    assert h.output + [] == h.output;
    more := if g.output == h.output then [] else [g.output[|h.output|]];
  }

  /** They do not touch the data on its way; completed packets only move it along. */
  lemma NotifyIsQuiet(h: Host, e: ClassicEvent)
    requires Ready(h) && Legal(Notify(e))
    ensures var g := HandleEvent(h, e).host;
            && Ready(g) && Outgoing(g) == Outgoing(h) && g.pending == h.pending
            && g.connection.value.handle == h.connection.value.handle
            && g.connection.value.channels == h.connection.value.channels
  {
    if e.NumberOfCompletedPackets? {
      CompletedIsQuiet(h, e.handle, e.completed);
    } else {
      var more := NotifyOutput(h, e);
      hide HandleEvent, AclFlow.Valid;
      var g := HandleEvent(h, e).host;
      AclsAppend(h.output, more);
      SilentAcls(more);
      assert Acls(h.output) + [] == Acls(h.output);
    }
  }

  lemma CompletedIsQuiet(h: Host, handle: u16, completed: u16)
    requires Ready(h)
    ensures var g := OnCompleted(h, handle, completed).host;
            && Ready(g) && Outgoing(g) == Outgoing(h) && g.pending == h.pending && g.connection == h.connection
  {
    hide AclFlow.Valid, AclFlow.Complete, FlushFlow;
    AclFlow.CompleteKeeps(h.flow, handle, completed);
    var r := AclFlow.Complete(h.flow, handle, completed);
    if r.Success? {
      CompletePayload(h.flow, handle, completed);
      FlushKeepsFlight(h.(flow := r.value));
    }
  }

  lemma CompletePayload(f: AclFlow.Flow, handle: u16, completed: u16)
    requires AclFlow.Complete(f, handle, completed).Success?
    ensures AclFlow.Complete(f, handle, completed).value.payloadSize == f.payloadSize
  {
  }

  lemma NotifyKeeps(s: Node, t: Node, a: seq<Pdu>, b: seq<Pdu>, links: map<u16, u16>, others: map<u16, u16>,
                    e: ClassicEvent)
    requires Inv(s, t, a, b, links, others) && Legal(Notify(e))
    ensures Inv(s.(host := HandleEvent(s.host, e).host), t, a, b, links, others)
  {
    hide HS.Inv, Pipe, HandleEvent;
    NotifyIsQuiet(s.host, e);
    var g := HandleEvent(s.host, e).host;
    Regroup(s.air, Acls(s.host.output), s.host.flow.queued);
    Regroup(s.air, Acls(g.output), g.flow.queued);
    QuietKeeps(s, t, a, b, links, others, s.(host := g));
  }

  lemma FlightPop(s: Node, to: u16)
    requires s.air != []
    ensures var packets := CarryAll(Flight(s), to);
            packets != [] && packets[0] == Carry(s.air[0], to)
                && packets[1..] == CarryAll(Flight(s.(air := s.air[1..])), to)
  {
    var rest := Acls(s.host.output) + s.host.flow.queued;
    Regroup(s.air, Acls(s.host.output), s.host.flow.queued);
    Regroup(s.air[1..], Acls(s.host.output), s.host.flow.queued);
    assert (s.air + rest)[1..] == s.air[1..] + rest;
  }

  /** A packet that only extends a PDU. */
  lemma ArrivePart(s: Node, t: Node, a: seq<Pdu>, b: seq<Pdu>, links: map<u16, u16>, others: map<u16, u16>,
                   pending: map<u16, Pending>)
    requires Inv(s, t, a, b, links, others) && s.air != [] && ValidAssembler(pending)
    requires var handle := t.host.connection.value.handle;
             Carries(PendingAt(pending, handle), CarryAll(Flight(s.(air := s.air[1..])), handle), a)
    ensures Inv(s.(air := s.air[1..]), t.(host := t.host.(pending := pending)), a, b, links, others)
  {
    hide HS.Inv, Carries, CarryAll;
  }

  /** The packet that completes a PDU, the PDU's processing, and the flush behind it. */
  lemma ArriveWhole(s: Node, t: Node, a: seq<Pdu>, b: seq<Pdu>, links: map<u16, u16>, others: map<u16, u16>,
                    pending: map<u16, Pending>)
    returns (b': seq<Pdu>, links': map<u16, u16>)
    requires Inv(s, t, a, b, links, others) && s.air != [] && ValidAssembler(pending) && a != []
    requires var handle := t.host.connection.value.handle;
             Carries(PendingAt(pending, handle), CarryAll(Flight(s.(air := s.air[1..])), handle), a[1..])
    ensures var p := Channels.ProcessPdu(t.host.connection.value.channels, a[0]);
            && p.error.None?
            && var r := FlushChannels(WithChannels(t.host.(pending := pending), p.manager));
            && r.error.None?
            && Inv(s.(air := s.air[1..]), t.(host := r.host), a[1..], b', links', others)
  {
    hide HS.Inv, Channels.ProcessPdu, FlushChannels, Carries, Stream, CarryAll, HM.Fits, CQ.Behind;
    links' := Processed(s, t, a, b, links, others);
    var n := Channels.ProcessPdu(t.host.connection.value.channels, a[0]).manager;
    var s', h := s.(air := s.air[1..]), WithChannels(t.host.(pending := pending), n);
    b' := b + n.outbound;
    assert HM.Fits(n.outbound) by {
      InvFits(H.Side(CQ.Behind(b, n), t.sent, t.taken), Abstract(s', a[1..]), others, links');
      BehindFits(b, n);
    }
    FlushSends(h);
    FlushPipes(t, s', b, h, t.sent);
    Absorb(t, FlushChannels(h).host, b, n, t.sent, Abstract(s', a[1..]), others, links');
    HS.InvBack(Abstract(t.(host := FlushChannels(h).host), b'), Abstract(s', a[1..]), others, links');
  }

  /** The first PDU on its way is accepted by the manager it arrives at. */
  lemma Processed(s: Node, t: Node, a: seq<Pdu>, b: seq<Pdu>, links: map<u16, u16>, others: map<u16, u16>)
    returns (links': map<u16, u16>)
    requires Inv(s, t, a, b, links, others) && a != [] && s.air != []
    ensures var p := Channels.ProcessPdu(t.host.connection.value.channels, a[0]);
            && p.error.None?
            && HS.Inv(H.Side(CQ.Behind(b, p.manager), t.sent, t.taken), Abstract(s.(air := s.air[1..]), a[1..]), others,
                      links')
  {
    hide HS.Inv, Channels.ProcessPdu, Pipe;
    var S, T, m := Abstract(s, a), Abstract(t, b), t.host.connection.value.channels;
    assert S.manager.outbound == a + [] && (a + [])[0] == a[0];
    assert Channels.PollOutbound(S.manager) == CQ.Behind(a[1..], s.host.connection.value.channels) by {
      assert (a + [])[1..] == a[1..] + [];
    }
    links' := HS.DeliverKeeps(S, T, links, others);
    CQ.ProcessBehind(b, m, a[0]);
    var n := Channels.ProcessPdu(m, a[0]).manager;
    HS.InvBack(Abstract(s.(air := s.air[1..]), a[1..]), H.Side(CQ.Behind(b, n), t.sent, t.taken), links', others);
  }

  /** No packet that arrives is ever refused, by the assembler, the codec or the channel manager. */
  lemma ArriveKeeps(s: Node, t: Node, a: seq<Pdu>, b: seq<Pdu>, links: map<u16, u16>, others: map<u16, u16>)
    returns (a': seq<Pdu>, b': seq<Pdu>, links': map<u16, u16>)
    requires Inv(s, t, a, b, links, others) && s.air != []
    ensures var r := ProcessAcl(t.host, Carry(s.air[0], t.host.connection.value.handle));
            r.error.None? && Inv(s.(air := s.air[1..]), t.(host := r.host), a', b', links', others)
  {
    hide HS.Inv, FlushChannels, Channels.ProcessPdu;
    InvUp(s, t, a, b, links, others);
    var handle := t.host.connection.value.handle;
    var p := Carry(s.air[0], handle);
    FlightPop(s, handle);
    CarriesNext(PendingAt(t.host.pending, handle), CarryAll(Flight(s), handle), a);
    FeedIsSound(t.host.pending, p);
    FeedKeepsOthers(t.host.pending, p, handle);
    hide Inv, Carries, CarryAll, Flight, FeedOne, DecodePdu, EncodePdu;
    var (pending, reply) := FeedPacket(t.host.pending, p);
    if reply.value.None? {
      a', b', links' := a, b, links;
      ArrivePart(s, t, a, b, links, others, pending);
    } else {
      PduRoundTrip(a[0]);
      a' := a[1..];
      b', links' := ArriveWhole(s, t, a, b, links, others, pending);
    }
  }

  lemma PerformKeeps(s: Node, t: Node, a: seq<Pdu>, b: seq<Pdu>, links: map<u16, u16>, others: map<u16, u16>, act: Act)
    returns (a': seq<Pdu>, b': seq<Pdu>, links': map<u16, u16>)
    requires Inv(s, t, a, b, links, others) && Legal(act) && Up(s) && Up(t)
    ensures Inv(Perform(s, t, act).0, Perform(s, t, act).1, a', b', links', others)
  {
    hide Inv, SendChannelSdu, ConnectChannel, RegisterServer, TakeChannelSdu, HandleEvent, ProcessAcl, H.Log;
    a', b', links' := a, b, links;
    match act
    case Register(psm, spec) => RegisterKeeps(s, t, a, b, links, others, psm, spec);
    case ConnectTo(psm, spec) => a' := ConnectKeeps(s, t, a, b, links, others, psm, spec);
    case SendSdu(cid, sdu) => a' := SendKeeps(s, t, a, b, links, others, cid, sdu);
    case TakeReceived(cid) =>
      var channels := s.host.connection.value.channels.channels;
      if cid in channels && channels[cid].received != [] { TakeKeeps(s, t, a, b, links, others, cid); }
    case Notify(e) => NotifyKeeps(s, t, a, b, links, others, e);
    case Emit => if s.host.output != [] { EmitKeeps(s, t, a, b, links, others); }
    case Arrive => if s.air != [] { a', b', links' := ArriveKeeps(s, t, a, b, links, others); }
  }

  // ---------------------------------------------------------------------------
  // Whole runs
  // ---------------------------------------------------------------------------

  datatype System = System(a: Node, b: Node)

  datatype Move = Move(byA: bool, act: Act)

  function Step(sys: System, move: Move): System
    requires Up(sys.a) && Up(sys.b)
  {
    if move.byA then var (a, b) := Perform(sys.a, sys.b, move.act); System(a, b)
    else var (b, a) := Perform(sys.b, sys.a, move.act); System(a, b)
  }

  // What a host is set up with before its controller reports a connection.
  datatype Setup = Setup(
    bonds: map<Address, Bond>, servers: map<u32, Channels.ChannelSpec>, payloadSize: nat, total: u16, handle: u16,
        peer: Address)

  predicate ValidSetup(u: Setup) { ValidServers(u.servers) && u.handle <= HANDLE_MAX && 4 <= u.payloadSize <= 0xFFFF }

  // A host that has just been connected.
  function Start(u: Setup): Node {
    Node(OnConnected(Fresh(u.bonds, u.payloadSize, u.total).(servers := u.servers), u.handle, u.peer).host, [], map[],
         map[])
  }

  ghost predicate Run(states: seq<System>, moves: seq<Move>, a: Setup, b: Setup) {
    && |states| == |moves| + 1
    && ValidSetup(a) && ValidSetup(b) && states[0] == System(Start(a), Start(b))
    && forall i :: 0 <= i < |moves| ==>
         Legal(moves[i].act) && Up(states[i].a) && Up(states[i].b) && states[i + 1] == Step(states[i], moves[i])
  }

  lemma StartFacts(u: Setup)
    requires ValidSetup(u)
    ensures var s := Start(u);
            && AtRest(s) && s.host.pending == map[] && Flight(s) == []
            && var m := s.host.connection.value.channels;
            m.channels == map[] && m.outbound == [] && HS.ServersOk(m.servers)
  {
    AclFlow.NothingInFlight(0);
    var s := Start(u);
    assert Silent(s.host.output);
    SilentAcls(s.host.output);
  }

  lemma StartInv(u: Setup, v: Setup)
    requires ValidSetup(u) && ValidSetup(v)
    ensures Inv(Start(u), Start(v), [], [], map[], map[])
  {
    StartFacts(u);
    StartFacts(v);
    hide Start, HS.Inv;
    var s, t, cap := Start(u), Start(v), DEFAULT_CAPABILITIES;
    var S, T := Abstract(s, []), Abstract(t, []);
    HS.FreshInv(cap, cap);
    HS.SameKeeps(HS.NewSide(cap), HS.NewSide(cap), map[], map[], S.manager);
    HS.InvBack(S, HS.NewSide(cap), map[], map[]);
    HS.SameKeeps(HS.NewSide(cap), S, map[], map[], T.manager);
    HS.InvBack(T, S, map[], map[]);
    assert CarryAll([], s.host.connection.value.handle) == [] && CarryAll([], t.host.connection.value.handle) == [];
    SideOf(s);
    SideOf(t);
  }

  lemma SideOf(s: Node)
    requires s.host.connection.Some? && s.sent == map[] && s.taken == map[]
    ensures Abstract(s, []) == H.Side(Abstract(s, []).manager, map[], map[])
  {
  }

  lemma InvBack(s: Node, t: Node, a: seq<Pdu>, b: seq<Pdu>, links: map<u16, u16>, others: map<u16, u16>)
    requires Inv(s, t, a, b, links, others)
    ensures Inv(t, s, b, a, others, links)
  {
    hide HS.Inv, Pipe;
    HS.InvBack(Abstract(s, a), Abstract(t, b), links, others);
  }

  lemma {:induction false} RunKeeps(states: seq<System>, moves: seq<Move>, u: Setup, v: Setup, n: nat)
    returns (a: seq<Pdu>, b: seq<Pdu>, links: map<u16, u16>, others: map<u16, u16>)
    requires Run(states, moves, u, v) && n < |states|
    ensures Inv(states[n].a, states[n].b, a, b, links, others)
  {
    hide Inv, Perform, Start, Up;
    if n == 0 {
      StartInv(u, v);
      a, b, links, others := [], [], map[], map[];
    } else {
      a, b, links, others := RunKeeps(states, moves, u, v, n - 1);
      var sys, move := states[n - 1], moves[n - 1];
      assert states[n - 1 + 1] == Step(sys, move);
      if move.byA {
        a, b, links := PerformKeeps(sys.a, sys.b, a, b, links, others, move.act);
      } else {
        InvBack(sys.a, sys.b, a, b, links, others);
        b, a, others := PerformKeeps(sys.b, sys.a, b, a, others, links, move.act);
        InvBack(states[n].b, states[n].a, b, a, others, links);
      }
    }
  }

  // A node as a side of the two-manager system, whatever is on its way.
  function Base(s: Node): H.Side
    requires s.host.connection.Some?
  {
    H.Side(s.host.connection.value.channels, s.sent, s.taken)
  }

  // What holds at the host `s` against its peer.
  predicate Safe(s: Node, t: Node) {
    && AtRest(s) && AtRest(t)
    && (forall x <- Base(s).manager.channels :: Base(s).manager.channels[x].state == Channels.Open ==>
        HS.Mirrored(Base(s), Base(t), x))
    && (s.air != [] ==> ProcessAcl(t.host, Carry(s.air[0], t.host.connection.value.handle)).error.None?)
  }

  lemma InvIsSafe(s: Node, t: Node, a: seq<Pdu>, b: seq<Pdu>, links: map<u16, u16>, others: map<u16, u16>)
    requires Inv(s, t, a, b, links, others)
    ensures Safe(s, t)
  {
    hide HS.Inv, Pipe, ProcessAcl, HS.Mirrored;
    forall x <- Base(s).manager.channels | Base(s).manager.channels[x].state == Channels.Open
      ensures HS.Mirrored(Base(s), Base(t), x)
    {
      HS.OpenIsMirrored(Abstract(s, a), Abstract(t, b), links, others, x);
      MirroredBase(s, t, a, b, x);
    }
    if s.air != [] { var _, _, _ := ArriveKeeps(s, t, a, b, links, others); }
  }

  lemma MirroredBase(s: Node, t: Node, a: seq<Pdu>, b: seq<Pdu>, x: u16)
    requires s.host.connection.Some? && t.host.connection.Some? && x in Abstract(s, a).manager.channels
    requires HS.Mirrored(Abstract(s, a), Abstract(t, b), x)
    ensures HS.Mirrored(Base(s), Base(t), x)
  {
  }

  /**
    * In every run of two connected hosts, whatever the schedule of credits: the two ends of an open
    * channel mirror each other, what has arrived is the beginning of what was sent, and no packet is refused.
    */
  lemma EndToEnd(states: seq<System>, moves: seq<Move>, u: Setup, v: Setup, n: nat)
    requires Run(states, moves, u, v) && n < |states|
    ensures Safe(states[n].a, states[n].b) && Safe(states[n].b, states[n].a)
  {
    hide Inv, Run, Safe;
    var a, b, links, others := RunKeeps(states, moves, u, v, n);
    InvBack(states[n].a, states[n].b, a, b, links, others);
    InvIsSafe(states[n].a, states[n].b, a, b, links, others);
    InvIsSafe(states[n].b, states[n].a, b, a, others, links);
  }

  lemma NothingInFlight(s: Node, t: Node, pdus: seq<Pdu>)
    requires t.host.connection.Some? && Pipe(s, t, pdus) && Flight(s) == []
    ensures pdus == [] && t.host.connection.value.handle !in t.host.pending
  {
    assert CarryAll(Flight(s), t.host.connection.value.handle) == [];
    assert |EncodeAll(pdus)| == |pdus|;
  }

  // Nothing in the air or on its way out, and a credit to spare.
  predicate Idle(s: Node) { s.air == [] && Acls(s.host.output) == [] && AclFlow.Total(s.host.flow) < s.host.flow.total }

  /**
    * Once the air and the outputs are empty and each controller has a credit to spare, everything sent on an open
    * channel has arrived, and both ends are open: nothing can be left waiting for credits.
    */
  lemma AllDelivered(states: seq<System>, moves: seq<Move>, u: Setup, v: Setup, n: nat, x: u16)
    requires Run(states, moves, u, v) && n < |states|
    requires Idle(states[n].a) && Idle(states[n].b)
    requires states[n].a.host.connection.Some? && x in states[n].a.host.connection.value.channels.channels
    ensures var s, t := states[n].a, states[n].b;
            && t.host.connection.Some?
            && var c := s.host.connection.value.channels.channels[x];
            && c.state in {Channels.Open, Channels.Closed}
            && (c.state == Channels.Open ==>
                  && c.destinationCid in t.host.connection.value.channels.channels
                  && t.host.connection.value.channels.channels[c.destinationCid].state == Channels.Open
                  && HS.Delivered(Base(s), x) == H.At(t.sent, c.destinationCid))
  {
    hide Run, HS.Inv, Pipe;
    var a, b, links, others := RunKeeps(states, moves, u, v, n);
    var s, t := states[n].a, states[n].b;
    assert Flight(s) == [] && Flight(t) == [];
    NothingInFlight(s, t, a);
    NothingInFlight(t, s, b);
    HS.SettledEnd(Abstract(s, a), Abstract(t, b), links, others, x);
  }
}
