/**
  * Two managers joined by FIFO queues, in basic mode and without disconnections: any
  * number of channels, opened from either side, all handshakes and data interleaved.
  */
module Handshake {
  import opened Bytes
  import opened Channels
  import opened HandshakeMessages

  // ---------------------------------------------------------------------------
  // The system
  // ---------------------------------------------------------------------------

  // A manager and its application's history: what it sent and what it took, per channel.
  // The manager's outbound queue is the link towards the other side.
  datatype Side = Side(manager: Manager, sent: map<u16, seq<seq<byte>>>, taken: map<u16, seq<seq<byte>>>)

  datatype Act =
    | Register(psm: Option<u32>, spec: ChannelSpec)
    | Unregister(server: u32)
    | ConnectTo(target: u32, spec: ChannelSpec)
    | SendSdu(cid: u16, sdu: seq<byte>)
    | TakeReceived(cid: u16)
    | TakeAccepted
    | Inquire(infoType: u16)
    | Deliver

  predicate Legal(act: Act) {
    match act
    case Register(_, spec) => spec.Basic?
    case ConnectTo(psm, spec) => spec.Basic? && psm <= 0xFFFF
    case _ => true
  }

  function At(m: map<u16, seq<seq<byte>>>, cid: u16): seq<seq<byte>> { if cid in m then m[cid] else [] }

  function Log(m: map<u16, seq<seq<byte>>>, cid: u16, sdu: seq<byte>): map<u16, seq<seq<byte>>> {
    m[cid := At(m, cid) + [sdu]]
  }

  // An act of the side `s`, and what it makes of both sides.
  function Perform(s: Side, t: Side, act: Act): (Side, Side)
    requires EnginesValid(s.manager)
  {
    match act
    case Register(psm, spec) => (s.(manager := RegisterServer(s.manager, psm, spec).0), t)
    case Unregister(psm) => (s.(manager := UnregisterServer(s.manager, psm)), t)
    case ConnectTo(psm, spec) => (s.(manager := Connect(s.manager, psm, spec).0), t)
    case SendSdu(cid, sdu) =>
      var r := Send(s.manager, cid, sdu);
      (Side(r.manager, if r.error.None? then Log(s.sent, cid, sdu) else s.sent, s.taken), t)
    case TakeReceived(cid) =>
      if cid !in s.manager.channels || s.manager.channels[cid].received == [] then (s, t)
      else (Side(PopReceived(s.manager, cid), s.sent, Log(s.taken, cid, s.manager.channels[cid].received[0])), t)
    case TakeAccepted => (s.(manager := PollAccepted(s.manager)), t)
    case Inquire(infoType) => (s.(manager := RequestInformation(s.manager, infoType)), t)
    case Deliver =>
      if s.manager.outbound == [] then (s, t)
      else (s.(manager := PollOutbound(s.manager)), t.(manager := ProcessPdu(t.manager, s.manager.outbound[0]).manager))
  }

  datatype System = System(a: Side, b: Side)

  datatype Move = Move(byA: bool, act: Act)

  function Step(sys: System, move: Move): System
    requires EnginesValid(sys.a.manager) && EnginesValid(sys.b.manager)
  {
    if move.byA then var (a, b) := Perform(sys.a, sys.b, move.act); System(a, b)
    else var (b, a) := Perform(sys.b, sys.a, move.act); System(a, b)
  }

  // ---------------------------------------------------------------------------
  // One end of a channel
  // ---------------------------------------------------------------------------

  datatype Key = To(to: u16) | From(from: u16) | Nowhere

  // The channel a message is for, or the channel a connection request comes from.
  function KeyOf(m: Message): Key {
    match m
    case Request(_, source) => From(source)
    case Response(_, source, _) => To(source)
    case Propose(destination, _) => To(destination)
    case Agree(source) => To(source)
    case Data(cid, _) => To(cid)
    case _ => Nowhere
  }

  function Project(queue: seq<Message>, key: Key): seq<Message> {
    if queue == [] then []
    else (if KeyOf(queue[0]) == key then [queue[0]] else []) + Project(queue[1..], key)
  }

  lemma {:induction false} ProjectAppend(queue: seq<Message>, more: seq<Message>, key: Key)
    ensures Project(queue + more, key) == Project(queue, key) + Project(more, key)
  {
    if queue == [] {
      assert queue + more == more;
    } else {
      hide KeyOf;
      var head, whole := if KeyOf(queue[0]) == key then [queue[0]] else [], queue + more;
      assert whole[0] == queue[0] && whole[1..] == queue[1..] + more;
      ProjectAppend(queue[1..], more, key);
      assert head + (Project(queue[1..], key) + Project(more, key)) == head + Project(queue[1..], key)
             + Project(more, key);
    }
  }

  // What the invariant looks at on one side.
  datatype Half = Half(
    channels: map<u16, Channel>, queue: seq<Message>, sent: map<u16, seq<seq<byte>>>, taken: map<u16, seq<seq<byte>>>)

  function HalfOf(s: Side): Half { Half(s.manager.channels, Messages(s.manager.outbound), s.sent, s.taken) }

  // A channel end: its channel, its application's history, and its messages in flight.
  datatype Port = Port(
    channel: Option<Channel>, sent: seq<seq<byte>>, taken: seq<seq<byte>>, inbox: seq<Message>, requests: seq<Message>)

  function Lookup(channels: map<u16, Channel>, cid: u16): Option<Channel> {
    if cid in channels then Some(channels[cid]) else None
  }

  function PortAt(s: Half, t: Half, cid: u16): Port {
    Port(Lookup(s.channels, cid), At(s.sent, cid), At(s.taken, cid), Project(t.queue, To(cid)),
         Project(s.queue, From(cid)))
  }

  predicate Outgoing(p: Port) { p.channel.Some? && !p.channel.value.incoming }

  predicate Incoming(p: Port) { p.channel.Some? && p.channel.value.incoming }

  predicate PortOk(cid: u16, p: Port) {
    match p.channel
    case None => p == Port(None, [], [], [], [])
    case Some(c) =>
      && c.sourceCid == cid && cid >= FIRST_CID
      && BasicChannel(c) && ValidSpec(c.spec)
      && (c.incoming ==> p.requests == [])
      && (c.state == Open ==> c.destinationCid >= FIRST_CID)
  }

  // An initiator whose request is under way, was refused, or is closed.
  predicate Unlinked(p: Port)
    requires p.channel.Some?
  {
    var c := p.channel.value;
    && p.sent == [] && p.taken == [] && c.received == []
    && !c.peerConfigured && !c.responseReceived
    && (|| (c.state == WaitConnectResponse && p.requests == [Request(c.psm, c.sourceCid)] && p.inbox == [])
        || (c.state == WaitConnectResponse && p.requests == []
            && |p.inbox| == 1 && p.inbox[0].Response? && p.inbox[0].result != SUCCESS)
        || (c.state == Closed && p.requests == [] && p.inbox == []))
  }

  function DataMessages(cid: u16, sdus: seq<seq<byte>>): seq<Message> {
    seq(|sdus|, i requires 0 <= i < |sdus| => Data(cid, sdus[i]))
  }

  function Maybe(condition: bool, m: Message): seq<Message> { if condition then [m] else [] }

  function Arrived(p: Port): seq<seq<byte>>
    requires p.channel.Some?
  {
    p.taken + p.channel.value.received
  }

  // What has arrived at `q` is the beginning of what `p` sent; the rest is in flight.
  predicate Flow(p: Port, q: Port)
    requires p.channel.Some? && q.channel.Some?
  {
    && |Arrived(q)| <= |p.sent| && Arrived(q) == p.sent[..|Arrived(q)|]
    && (p.sent != [] ==> p.channel.value.state == Open)
    && (Arrived(q) != [] ==> q.channel.value.state == Open)
    && (forall i :: 0 <= i < |p.sent| ==> |p.sent[i]| <= p.channel.value.peerMtu)
  }

  // The data of `p` still on its way to `q`.
  function InFlight(p: Port, q: Port): seq<Message>
    requires p.channel.Some? && q.channel.Some? && Flow(p, q)
  {
    DataMessages(q.channel.value.sourceCid, p.sent[|Arrived(q)|..])
  }

  // How far the initiator `x` and the acceptor `y` may be from each other.
  predicate Stages(x: Channel, y: Channel) {
    && y.incoming && y.destinationCid == x.sourceCid && y.psm == x.psm && y.state in {Configuring, Open}
    && x.state in {WaitConnectResponse, Configuring, Open}
    && (x.state != WaitConnectResponse ==> x.destinationCid == y.sourceCid)
    && (x.state == WaitConnectResponse ==> !x.peerConfigured)
    && (x.peerConfigured ==> x.peerMtu == y.spec.mtu)
    && (x.responseReceived ==> x.peerConfigured && y.peerConfigured)
    && (x.responseReceived <==> x.state == Open)
    && (y.peerConfigured ==> y.peerMtu == x.spec.mtu && x.state != WaitConnectResponse)
    && (y.responseReceived ==> y.peerConfigured && x.peerConfigured)
    && (y.responseReceived <==> y.state == Open)
  }

  /** An initiator, its acceptor, and exactly the messages between them. */
  predicate Linked(p: Port, q: Port) {
    && p.channel.Some? && q.channel.Some?
    && var x, y := p.channel.value, q.channel.value;
    && Stages(x, y) && Flow(p, q) && Flow(q, p)
    && p.requests == []
    && p.inbox == Maybe(x.state == WaitConnectResponse, Response(y.sourceCid, x.sourceCid, SUCCESS))
                  + Maybe(!x.peerConfigured, Propose(x.sourceCid, y.spec.mtu))
                  + Maybe(y.peerConfigured && !x.responseReceived, Agree(x.sourceCid))
                  + InFlight(q, p)
    && q.inbox == Maybe(x.state != WaitConnectResponse && !y.peerConfigured, Propose(y.sourceCid, x.spec.mtu))
                  + Maybe(x.peerConfigured && !y.responseReceived, Agree(y.sourceCid))
                  + InFlight(p, q)
  }

  // The channel `x` that `s` opened, with the acceptor in `t` that `links` names, if any.
  predicate InitiatorOk(s: Half, t: Half, links: map<u16, u16>, x: u16) {
    && PortOk(x, PortAt(s, t, x))
    && (x in links ==> Outgoing(PortAt(s, t, x)) && Linked(PortAt(s, t, x), PortAt(t, s, links[x])))
    && (x !in links && Outgoing(PortAt(s, t, x)) ==> Unlinked(PortAt(s, t, x)))
  }

  predicate AcceptorOk(s: Half, t: Half, links: map<u16, u16>, y: u16) {
    Incoming(PortAt(t, s, y)) ==>
      PortAt(t, s, y).channel.value.destinationCid in links && links[PortAt(t, s, y).channel.value.destinationCid] == y
  }

  ghost predicate Pair(s: Half, t: Half, links: map<u16, u16>) {
    && (forall x: u16 :: InitiatorOk(s, t, links, x))
    && (forall y: u16 :: AcceptorOk(s, t, links, y))
  }

  lemma LinkedNames(x: u16, p: Port, q: Port)
    requires Linked(p, q) && PortOk(x, p)
    ensures Incoming(q) && q.channel.value.destinationCid == x
  {
  }

  /** A step that touches at most the end `x0` on one side and the end `y0` on the other. */
  lemma PairFrame(s: Half, t: Half, s': Half, t': Half, links: map<u16, u16>, links': map<u16, u16>, x0: u16, y0: u16)
    requires Pair(s, t, links)
    requires forall x: u16 :: x != x0 ==> PortAt(s', t', x) == PortAt(s, t, x)
    requires forall y: u16 :: y != y0 ==> PortAt(t', s', y) == PortAt(t, s, y)
    requires forall x: u16 :: x != x0 ==> (x in links' <==> x in links)
    requires forall x: u16 :: x in links ==> x in links' && links'[x] == links[x]
    requires PortAt(t', s', y0) == PortAt(t, s, y0)
             || (Incoming(PortAt(t, s, y0)) ==> PortAt(t, s, y0).channel.value.destinationCid == x0)
    requires InitiatorOk(s', t', links', x0) && AcceptorOk(s', t', links', y0)
    ensures Pair(s', t', links')
  {
    hide PortAt, PortOk, Unlinked, Linked, Outgoing;
    forall x: u16 ensures InitiatorOk(s', t', links', x) {
      assert InitiatorOk(s, t, links, x);
      if x != x0 && x in links { LinkedNames(x, PortAt(s, t, x), PortAt(t, s, links[x])); }
    }
    forall y: u16 ensures AcceptorOk(s', t', links', y) {
      assert AcceptorOk(s, t, links, y);
    }
  }

  // A step that leaves every end but `x0` and `y0` alone.
  ghost predicate Touches(s: Half, t: Half, s': Half, t': Half, x0: u16, y0: u16) {
    && (forall x: u16 :: x != x0 ==> PortAt(s', t', x) == PortAt(s, t, x))
    && (forall y: u16 :: y != y0 ==> PortAt(t', s', y) == PortAt(t, s, y))
  }

  /** A step of one link keeps every link, whichever side opened it. */
  lemma LinkStep(s: Half, t: Half, s': Half, t': Half, links: map<u16, u16>, others: map<u16, u16>, x0: u16, y0: u16)
    requires Pair(s, t, links) && Pair(t, s, others) && Touches(s, t, s', t', x0, y0)
    requires Outgoing(PortAt(s, t, x0))
    requires (x0 in links && links[x0] == y0) || (x0 !in links && PortAt(t, s, y0).channel.None?)
    requires PortOk(x0, PortAt(s', t', x0)) && Outgoing(PortAt(s', t', x0))
    requires PortOk(y0, PortAt(t', s', y0)) && Linked(PortAt(s', t', x0), PortAt(t', s', y0))
    ensures Pair(s', t', links[x0 := y0]) && Pair(t', s', others)
  {
    hide PortAt, PortOk, Unlinked, Linked;
    var links' := links[x0 := y0];
    assert InitiatorOk(s, t, links, x0) && InitiatorOk(t, s, others, y0);
    LinkedNames(x0, PortAt(s', t', x0), PortAt(t', s', y0));
    if x0 in links { LinkedNames(x0, PortAt(s, t, x0), PortAt(t, s, y0)); }
    PairFrame(s, t, s', t', links, links', x0, y0);
    PairFrame(t, s, t', s', others, others, y0, x0);
  }

  /** A step of an initiator without an acceptor. */
  lemma SoloStep(s: Half, t: Half, s': Half, t': Half, links: map<u16, u16>, others: map<u16, u16>, x0: u16)
    requires Pair(s, t, links) && Pair(t, s, others) && Touches(s, t, s', t', x0, 0)
    requires PortAt(t', s', 0) == PortAt(t, s, 0)
    requires x0 !in links && !Incoming(PortAt(s, t, x0))
    requires PortOk(x0, PortAt(s', t', x0)) && Outgoing(PortAt(s', t', x0)) && Unlinked(PortAt(s', t', x0))
    ensures Pair(s', t', links) && Pair(t', s', others)
  {
    hide PortAt, PortOk, Unlinked, Linked;
    assert AcceptorOk(s, t, links, 0) && InitiatorOk(t, s, others, 0);
    PairFrame(s, t, s', t', links, links, x0, 0);
    if 0 in others { LinkedNames(0, PortAt(t, s, 0), PortAt(s, t, others[0])); }
    PairFrame(t, s, t', s', others, others, 0, x0);
  }

  lemma SamePorts(s: Half, t: Half, s': Half, t': Half, links: map<u16, u16>, others: map<u16, u16>)
    requires Pair(s, t, links) && Pair(t, s, others)
    requires forall x: u16 :: PortAt(s', t', x) == PortAt(s, t, x)
    requires forall y: u16 :: PortAt(t', s', y) == PortAt(t, s, y)
    ensures Pair(s', t', links) && Pair(t', s', others)
  {
    hide PortAt, PortOk, Unlinked, Linked;
    assert AcceptorOk(s, t, links, 0) && InitiatorOk(t, s, others, 0);
    assert AcceptorOk(t, s, others, 0) && InitiatorOk(s, t, links, 0);
    if 0 in links { LinkedNames(0, PortAt(s, t, 0), PortAt(t, s, links[0])); }
    if 0 in others { LinkedNames(0, PortAt(t, s, 0), PortAt(s, t, others[0])); }
    PairFrame(s, t, s', t', links, links, 0, 0);
    PairFrame(t, s, t', s', others, others, 0, 0);
  }

  // ---------------------------------------------------------------------------
  // How steps change ports
  // ---------------------------------------------------------------------------

  // Every one of these messages concerns `y0`, comes from `x0`, or concerns no channel.
  predicate Concern(added: seq<Message>, x0: u16, y0: u16) {
    forall i :: 0 <= i < |added| ==> KeyOf(added[i]) in {To(y0), From(x0), Nowhere}
  }

  lemma {:induction false} Unconcerned(added: seq<Message>, x0: u16, y0: u16, key: Key)
    requires Concern(added, x0, y0) && key !in {To(y0), From(x0), Nowhere}
    ensures Project(added, key) == []
    decreases |added|
  {
    if added != [] { Unconcerned(added[1..], x0, y0, key); }
  }

  // The ends of `s` other than `x0` have the channels and history they had.
  ghost predicate OnlyEnd(s: Half, s': Half, x0: u16) {
    forall x: u16 :: x != x0 ==>
      Lookup(s'.channels, x) == Lookup(s.channels, x) && At(s'.sent, x) == At(s.sent, x)
          && At(s'.taken, x) == At(s.taken, x)
  }

  lemma CallPorts(s: Half, t: Half, s': Half, added: seq<Message>, x0: u16, y0: u16)
    requires s'.queue == s.queue + added && Concern(added, x0, y0) && OnlyEnd(s, s', x0)
    ensures Touches(s, t, s', t, x0, y0)
    ensures var p := PortAt(s, t, x0);
            PortAt(s', t, x0) == Port(Lookup(s'.channels, x0), At(s'.sent, x0), At(s'.taken, x0), p.inbox,
                                      p.requests + Project(added, From(x0)))
    ensures var q := PortAt(t, s, y0);
            PortAt(t, s', y0) == q.(inbox := q.inbox + Project(added, To(y0)))
  {
    forall key: Key ensures Project(s'.queue, key) == Project(s.queue, key) + Project(added, key)
                    ensures key !in {To(y0), From(x0), Nowhere} ==> Project(s'.queue, key) == Project(s.queue, key)
    {
      ProjectAppend(s.queue, added, key);
      if key !in {To(y0), From(x0), Nowhere} { Unconcerned(added, x0, y0, key); }
    }
  }

  function Popped(s: Half): Half
    requires s.queue != []
  {
    s.(queue := s.queue[1..])
  }

  function Without(messages: seq<Message>, head: Message, key: Key): seq<Message> {
    if KeyOf(head) == key && messages != [] then messages[1..] else messages
  }

  // What a delivery from `s` to `t` may be: a message for `y0` or from `x0`, and an answer to `x0`.
  predicate Delivery(s: Half, t: Half, t': Half, added: seq<Message>, x0: u16, y0: u16) {
    && s.queue != [] && KeyOf(s.queue[0]) in {To(y0), From(x0), Nowhere}
    && t'.queue == t.queue + added
    && forall i :: 0 <= i < |added| ==> KeyOf(added[i]) in {To(x0), Nowhere}
  }

  lemma DeliverTouches(s: Half, t: Half, t': Half, added: seq<Message>, x0: u16, y0: u16)
    requires Delivery(s, t, t', added, x0, y0) && OnlyEnd(t, t', y0)
    ensures Touches(s, t, Popped(s), t', x0, y0)
  {
    hide Project, KeyOf, Lookup, At;
    forall key: Key ensures key !in {To(x0), Nowhere} ==> Project(t'.queue, key) == Project(t.queue, key) {
      ProjectAppend(t.queue, added, key);
      if key !in {To(x0), Nowhere} { OnlyTo(added, x0, key); }
    }
    forall key: Key ensures key !in {To(y0), From(x0), Nowhere} ==>
        Project(s.queue[1..], key) == Project(s.queue, key) {
      ProjectPop(s.queue, key);
    }
  }

  lemma DeliverPorts(s: Half, t: Half, t': Half, added: seq<Message>, x0: u16, y0: u16)
    requires Delivery(s, t, t', added, x0, y0) && OnlyEnd(t, t', y0)
    ensures Touches(s, t, Popped(s), t', x0, y0)
    ensures var p := PortAt(s, t, x0);
            PortAt(Popped(s), t', x0) == p.(inbox := p.inbox + Project(added, To(x0)),
                                            requests := Without(p.requests, s.queue[0], From(x0)))
    ensures var q := PortAt(t, s, y0);
            PortAt(t', Popped(s), y0) == Port(Lookup(t'.channels, y0), At(t'.sent, y0), At(t'.taken, y0),
                                              Without(q.inbox, s.queue[0], To(y0)), q.requests)
    ensures KeyOf(s.queue[0]) == To(y0) ==> PortAt(t, s, y0).inbox != [] && PortAt(t, s, y0).inbox[0] == s.queue[0]
    ensures KeyOf(s.queue[0]) == From(x0) ==>
            PortAt(s, t, x0).requests != [] && PortAt(s, t, x0).requests[0] == s.queue[0]
  {
    DeliverTouches(s, t, t', added, x0, y0);
    hide Project, KeyOf, Lookup, At, Touches;
    ProjectAppend(t.queue, added, To(x0));
    ProjectAppend(t.queue, added, From(y0));
    OnlyTo(added, x0, From(y0));
    ProjectPop(s.queue, To(y0));
    ProjectPop(s.queue, From(x0));
  }

  lemma ProjectPop(queue: seq<Message>, key: Key)
    requires queue != []
    ensures Project(queue[1..], key) == Without(Project(queue, key), queue[0], key)
    ensures KeyOf(queue[0]) == key ==> Project(queue, key) != [] && Project(queue, key)[0] == queue[0]
  {
  }

  lemma {:induction false} OnlyTo(added: seq<Message>, x0: u16, key: Key)
    requires forall i :: 0 <= i < |added| ==> KeyOf(added[i]) in {To(x0), Nowhere}
    requires key !in {To(x0), Nowhere}
    ensures Project(added, key) == []
    decreases |added|
  {
    if added != [] { OnlyTo(added[1..], x0, key); }
  }

  // ---------------------------------------------------------------------------
  // How steps change a link
  // ---------------------------------------------------------------------------

  lemma ResponseStep(p: Port, q: Port, p': Port, q': Port, m: Message)
    requires Linked(p, q) && p.inbox != [] && p.inbox[0] == m && m.Response?
    requires p' == p.(channel := Some(Answered(p.channel.value, m.destination, m.result)), inbox := p.inbox[1..])
    requires q' == q.(inbox := q.inbox + [Propose(m.destination, p.channel.value.spec.mtu)])
    ensures p.channel.value.state == WaitConnectResponse && m.result == SUCCESS
            && m.destination == q.channel.value.sourceCid
    ensures Linked(p', q')
  {
    assert p.sent == [] && q.sent == [];
    assert Arrived(p') == Arrived(p) && Arrived(q') == Arrived(q);
  }

  lemma ProposeToInitiator(p: Port, q: Port, p': Port, q': Port, m: Message)
    requires Linked(p, q) && p.inbox != [] && p.inbox[0] == m && m.Propose?
    requires p' == p.(channel := Some(Opened(p.channel.value.(peerMtu := m.mtu, peerConfigured := true))),
                      inbox := p.inbox[1..])
    requires q' == q.(inbox := q.inbox + [Agree(p.channel.value.destinationCid)])
    ensures m.mtu == q.channel.value.spec.mtu
    ensures Linked(p', q')
  {
    assert p.sent == [];
    assert Arrived(p') == Arrived(p) && Arrived(q') == Arrived(q);
  }

  lemma ProposeToAcceptor(p: Port, q: Port, p': Port, q': Port, m: Message)
    requires Linked(p, q) && q.inbox != [] && q.inbox[0] == m && m.Propose?
    requires q' == q.(channel := Some(Opened(q.channel.value.(peerMtu := m.mtu, peerConfigured := true))),
                      inbox := q.inbox[1..])
    requires p' == p.(inbox := p.inbox + [Agree(q.channel.value.destinationCid)])
    ensures m.mtu == p.channel.value.spec.mtu
    ensures Linked(p', q')
  {
    assert q.sent == [];
    assert Arrived(p') == Arrived(p) && Arrived(q') == Arrived(q);
  }

  lemma AgreeToInitiator(p: Port, q: Port, p': Port)
    requires Linked(p, q) && p.inbox != [] && p.inbox[0].Agree?
    requires p' == p.(channel := Some(Opened(p.channel.value.(responseReceived := true))), inbox := p.inbox[1..])
    ensures Linked(p', q)
  {
    assert Arrived(p') == Arrived(p);
  }

  lemma AgreeToAcceptor(p: Port, q: Port, q': Port)
    requires Linked(p, q) && q.inbox != [] && q.inbox[0].Agree?
    requires q' == q.(channel := Some(Opened(q.channel.value.(responseReceived := true))), inbox := q.inbox[1..])
    ensures Linked(p, q')
  {
    assert Arrived(q') == Arrived(q);
  }

  // The end `p` with one more SDU received.
  function Receiving(p: Port, sdu: seq<byte>): Port
    requires p.channel.Some?
  {
    p.(channel := Some(p.channel.value.(received := p.channel.value.received + [sdu])))
  }

  lemma FlowOnward(p: Port, q: Port)
    requires p.channel.Some? && q.channel.Some? && Flow(p, q) && InFlight(p, q) != [] && q.channel.value.state == Open
    ensures InFlight(p, q)[0].Data? && Arrived(q) < p.sent
    ensures var sdu := InFlight(p, q)[0].sdu;
            && |sdu| <= p.channel.value.peerMtu
            && Flow(p, Receiving(q, sdu)) && InFlight(p, Receiving(q, sdu)) == InFlight(p, q)[1..]
  {
    var sdu := InFlight(p, q)[0].sdu;
    var n := |Arrived(q)|;
    assert sdu == p.sent[n];
    assert Arrived(Receiving(q, sdu)) == Arrived(q) + [sdu] == p.sent[..n + 1];
    assert p.sent[n..][1..] == p.sent[n + 1..];
  }

  lemma DataToInitiator(p: Port, q: Port, p': Port, m: Message)
    requires Linked(p, q) && p.inbox != [] && p.inbox[0] == m && m.Data?
    requires p' == Receiving(p, m.sdu).(inbox := p.inbox[1..])
    ensures p.channel.value.state == Open && |m.sdu| <= p.channel.value.spec.mtu
    ensures Linked(p', q)
  {
    assert InFlight(q, p) != [] ==> q.sent != [];
    assert p.inbox == InFlight(q, p);
    FlowOnward(q, p);
    assert Arrived(p') == Arrived(Receiving(p, m.sdu));
  }

  lemma DataToAcceptor(p: Port, q: Port, q': Port, m: Message)
    requires Linked(p, q) && q.inbox != [] && q.inbox[0] == m && m.Data?
    requires q' == Receiving(q, m.sdu).(inbox := q.inbox[1..])
    ensures q.channel.value.state == Open && |m.sdu| <= q.channel.value.spec.mtu
    ensures Linked(p, q')
  {
    assert InFlight(p, q) != [] ==> p.sent != [];
    assert q.inbox == InFlight(p, q);
    FlowOnward(p, q);
    assert Arrived(q') == Arrived(Receiving(q, m.sdu));
  }

  lemma FlowMore(p: Port, q: Port, sdu: seq<byte>)
    requires p.channel.Some? && q.channel.Some? && Flow(p, q)
    requires p.channel.value.state == Open && |sdu| <= p.channel.value.peerMtu
    ensures var p' := p.(sent := p.sent + [sdu]);
            Flow(p', q) && InFlight(p', q) == InFlight(p, q) + [Data(q.channel.value.sourceCid, sdu)]
  {
    assert (p.sent + [sdu])[|Arrived(q)|..] == p.sent[|Arrived(q)|..] + [sdu];
  }

  lemma SendByInitiator(p: Port, q: Port, sdu: seq<byte>)
    requires Linked(p, q) && p.channel.value.state == Open && |sdu| <= p.channel.value.peerMtu
    ensures Linked(p.(sent := p.sent + [sdu]), q.(inbox := q.inbox + [Data(p.channel.value.destinationCid, sdu)]))
  {
    var p' := p.(sent := p.sent + [sdu]);
    var q' := q.(inbox := q.inbox + [Data(p.channel.value.destinationCid, sdu)]);
    FlowMore(p, q, sdu);
    assert Arrived(p') == Arrived(p) && Arrived(q') == Arrived(q);
  }

  lemma SendByAcceptor(p: Port, q: Port, sdu: seq<byte>)
    requires Linked(p, q) && q.channel.value.state == Open && |sdu| <= q.channel.value.peerMtu
    ensures Linked(p.(inbox := p.inbox + [Data(q.channel.value.destinationCid, sdu)]), q.(sent := q.sent + [sdu]))
  {
    var q' := q.(sent := q.sent + [sdu]);
    var p' := p.(inbox := p.inbox + [Data(q.channel.value.destinationCid, sdu)]);
    FlowMore(q, p, sdu);
    assert Arrived(p') == Arrived(p) && Arrived(q') == Arrived(q);
  }

  // The end `p` after its application took an SDU.
  function Taken(p: Port): Port
    requires p.channel.Some? && p.channel.value.received != []
  {
    var c := p.channel.value;
    p.(channel := Some(c.(received := c.received[1..])), taken := p.taken + [c.received[0]])
  }

  lemma TakeStep(p: Port, q: Port)
    requires Linked(p, q)
    ensures p.channel.value.received != [] ==> Linked(Taken(p), q)
    ensures q.channel.value.received != [] ==> Linked(p, Taken(q))
  {
    if p.channel.value.received != [] { assert Arrived(Taken(p)) == Arrived(p); }
    if q.channel.value.received != [] { assert Arrived(Taken(q)) == Arrived(q); }
  }

  lemma AcceptStep(x: u16, p: Port, q: Port, p': Port, q': Port, psm: u32, spec: ChannelSpec, y: u16)
    requires PortOk(x, p) && Outgoing(p) && Unlinked(p) && p.requests == [Request(psm, x)]
    requires PortOk(y, q) && q.channel.None? && spec.Basic?
    requires q' == q.(channel := Some(IncomingChannel(psm, y, x, spec)))
    requires p' == p.(requests := [], inbox := p.inbox + [Response(y, x, SUCCESS), Propose(x, spec.mtu)])
    ensures Linked(p', q')
  {
    assert Arrived(p') == [] && Arrived(q') == [];
  }
}
