/** The two-manager theorem: the invariant of module Handshake holds in every run. */
module HandshakeSafety {
  import opened Bytes
  import opened Signaling
  import opened Channels
  import opened HandshakeMessages
  import opened Handshake

  ghost predicate Pairs(s: Half, t: Half, links: map<u16, u16>, others: map<u16, u16>) {
    Pair(s, t, links) && Pair(t, s, others)
  }

  lemma TouchesBack(s: Half, t: Half, s': Half, t': Half, x0: u16, y0: u16)
    requires Touches(s, t, s', t', x0, y0)
    ensures Touches(t, s, t', s', y0, x0)
  {
  }

  /** Where a message for the end `c` of `t` comes from. */
  lemma Locate(s: Half, t: Half, links: map<u16, u16>, others: map<u16, u16>, c: u16)
    requires Pairs(s, t, links, others) && PortAt(t, s, c).inbox != []
    ensures c in t.channels && PortOk(c, PortAt(t, s, c)) && PortAt(t, s, c).channel == Some(t.channels[c])
    ensures var q := PortAt(t, s, c);
            || (&& Incoming(q) && q.channel.value.destinationCid in links && links[q.channel.value.destinationCid] == c
                && var x := q.channel.value.destinationCid;
                Outgoing(PortAt(s, t, x)) && PortOk(x, PortAt(s, t, x)) && Linked(PortAt(s, t, x), q))
            || (&& Outgoing(q) && c in others && PortOk(others[c], PortAt(s, t, others[c]))
                && Incoming(PortAt(s, t, others[c])) && Linked(q, PortAt(s, t, others[c])))
            || (Outgoing(q) && c !in others && Unlinked(q))
  {
    hide Linked, Unlinked;
    assert InitiatorOk(t, s, others, c) && AcceptorOk(s, t, links, c);
    var q := PortAt(t, s, c);
    if Incoming(q) {
      assert InitiatorOk(s, t, links, q.channel.value.destinationCid);
    } else if c in others {
      LinkedNames(c, q, PortAt(s, t, others[c]));
      assert InitiatorOk(s, t, links, others[c]);
    }
  }

  function Respond(t: Half, m: Message): Half
    requires m.Response? && m.source in t.channels
  {
    var c := t.channels[m.source];
    t.(channels := t.channels[m.source := Answered(c, m.destination, m.result)],
       queue := t.queue + (if m.result == SUCCESS then [Propose(m.destination, c.spec.mtu)] else []))
  }

  function Configure(t: Half, m: Message): Half
    requires m.Propose? && m.destination in t.channels
  {
    var c := t.channels[m.destination];
    t.(channels := t.channels[m.destination := Opened(c.(peerMtu := m.mtu, peerConfigured := true))],
       queue := t.queue + [Agree(c.destinationCid)])
  }

  function Confirm(t: Half, m: Message): Half
    requires m.Agree? && m.source in t.channels
  {
    t.(channels := t.channels[m.source := Opened(t.channels[m.source].(responseReceived := true))],
       queue := t.queue + [])
  }

  function Receive(t: Half, m: Message): Half
    requires m.Data? && m.cid in t.channels
  {
    var c := t.channels[m.cid];
    t.(channels := t.channels[m.cid := c.(received := c.received + [m.sdu])], queue := t.queue + [])
  }

  lemma ProjectOne(m: Message, key: Key)
    ensures Project([m], key) == if KeyOf(m) == key then [m] else []
  {
    assert [m][1..] == [];
  }

  lemma DeliverResponse(s: Half, t: Half, links: map<u16, u16>, others: map<u16, u16>)
    requires Pairs(s, t, links, others) && s.queue != [] && s.queue[0].Response?
    ensures var m := s.queue[0];
            && m.source in t.channels && t.channels[m.source].state == WaitConnectResponse
               && BasicChannel(t.channels[m.source])
            && Pairs(Popped(s), Respond(t, m), links, others)
  {
    hide Linked, Project, At, Pair, Touches;
    var m := s.queue[0];
    var x := m.source;
    ProjectPop(s.queue, To(x));
    Locate(s, t, links, others, x);
    var t', p := Respond(t, m), PortAt(t, s, x);
    var added := if m.result == SUCCESS then [Propose(m.destination, t.channels[x].spec.mtu)] else [];
    if Outgoing(p) && x !in others {
      DeliverPorts(s, t, t', added, 0, x);
      TouchesBack(s, t, Popped(s), t', 0, x);
      assert Project([], To(0)) == [] by { EmptyProject(To(0)); }
      SoloStep(t, s, t', Popped(s), others, links, x);
    } else if Incoming(p) {
      NoResponseToAcceptor(PortAt(s, t, p.channel.value.destinationCid), p);
    } else {
      var y := others[x];
      var q := PortAt(s, t, y);
      LinkedResponse(p, q);
      LinkedSources(p, q, x, y);
      ProjectOne(Propose(m.destination, t.channels[x].spec.mtu), To(y));
      DeliverPorts(s, t, t', added, y, x);
      TouchesBack(s, t, Popped(s), t', y, x);
      ResponseStep(p, q, PortAt(t', Popped(s), x), PortAt(Popped(s), t', y), m);
      assert others[x := y] == others;
      LinkStep(t, s, t', Popped(s), others, links, x, y);
    }
  }

  lemma EmptyProject(key: Key)
    ensures Project([], key) == []
  {
  }

  lemma NoResponseToAcceptor(p: Port, q: Port)
    requires Linked(p, q) && q.inbox != []
    ensures !q.inbox[0].Response?
  {
  }

  lemma LinkedResponse(p: Port, q: Port)
    requires Linked(p, q) && p.inbox != [] && p.inbox[0].Response?
    ensures p.channel.value.state == WaitConnectResponse && p.inbox[0].result == SUCCESS
    ensures p.inbox[0].destination == q.channel.value.sourceCid && q.channel.value.sourceCid == p.inbox[0].destination
  {
  }

  lemma LinkedSources(p: Port, q: Port, x: u16, y: u16)
    requires Linked(p, q) && PortOk(x, p) && PortOk(y, q)
    ensures p.channel.value.sourceCid == x && q.channel.value.sourceCid == y && q.channel.value.destinationCid == x
    ensures p.channel.value.state != WaitConnectResponse ==> p.channel.value.destinationCid == y
  {
  }

  lemma DeliverPropose(s: Half, t: Half, links: map<u16, u16>, others: map<u16, u16>)
    requires Pairs(s, t, links, others) && s.queue != [] && s.queue[0].Propose?
    ensures var m := s.queue[0];
            && m.destination in t.channels && BasicChannel(t.channels[m.destination]) && m.mtu >= MIN_MTU
            && Pairs(Popped(s), Configure(t, m), links, others)
  {
    hide Linked, Project, At, Pair, Touches;
    var m := s.queue[0];
    var c := m.destination;
    ProjectPop(s.queue, To(c));
    Locate(s, t, links, others, c);
    var t', q := Configure(t, m), PortAt(t, s, c);
    var peer := q.channel.value.destinationCid;
    var added := [Agree(peer)];
    if Incoming(q) {
      var p := PortAt(s, t, peer);
      ProjectOne(Agree(peer), To(peer));
      LinkedSources(p, q, peer, c);
      DeliverPorts(s, t, t', added, peer, c);
      ProposeToAcceptor(p, q, PortAt(Popped(s), t', peer), PortAt(t', Popped(s), c), m);
      assert links[peer := c] == links;
      LinkStep(s, t, Popped(s), t', links, others, peer, c);
    } else {
      var y := others[c];
      var p := PortAt(s, t, y);
      LinkedSources(q, p, c, y);
      LinkedPropose(q, p);
      ProjectOne(Agree(peer), To(y));
      DeliverPorts(s, t, t', added, y, c);
      TouchesBack(s, t, Popped(s), t', y, c);
      ProposeToInitiator(q, p, PortAt(t', Popped(s), c), PortAt(Popped(s), t', y), m);
      assert others[c := y] == others;
      LinkStep(t, s, t', Popped(s), others, links, c, y);
    }
  }

  lemma LinkedPropose(p: Port, q: Port)
    requires Linked(p, q) && p.inbox != [] && p.inbox[0].Propose?
    ensures p.channel.value.state != WaitConnectResponse
  {
  }

  lemma DeliverAgree(s: Half, t: Half, links: map<u16, u16>, others: map<u16, u16>)
    requires Pairs(s, t, links, others) && s.queue != [] && s.queue[0].Agree?
    ensures s.queue[0].source in t.channels && Pairs(Popped(s), Confirm(t, s.queue[0]), links, others)
  {
    hide Linked, Project, At, Pair, Touches;
    var m := s.queue[0];
    var c := m.source;
    ProjectPop(s.queue, To(c));
    Locate(s, t, links, others, c);
    var t', q := Confirm(t, m), PortAt(t, s, c);
    if Incoming(q) {
      var x := q.channel.value.destinationCid;
      EmptyProject(To(x));
      LinkedSources(PortAt(s, t, x), q, x, c);
      DeliverPorts(s, t, t', [], x, c);
      assert PortAt(Popped(s), t', x) == PortAt(s, t, x);
      AgreeToAcceptor(PortAt(s, t, x), q, PortAt(t', Popped(s), c));
      assert links[x := c] == links;
      LinkStep(s, t, Popped(s), t', links, others, x, c);
    } else {
      var y := others[c];
      EmptyProject(To(y));
      LinkedSources(q, PortAt(s, t, y), c, y);
      LinkedAgree(q, PortAt(s, t, y));
      DeliverPorts(s, t, t', [], y, c);
      assert PortAt(Popped(s), t', y) == PortAt(s, t, y);
      TouchesBack(s, t, Popped(s), t', y, c);
      AgreeToInitiator(q, PortAt(s, t, y), PortAt(t', Popped(s), c));
      assert others[c := y] == others;
      LinkStep(t, s, t', Popped(s), others, links, c, y);
    }
  }

  lemma LinkedAgree(p: Port, q: Port)
    requires Linked(p, q) && p.inbox != [] && p.inbox[0].Agree?
    ensures p.channel.value.state != WaitConnectResponse
  {
  }

  lemma DeliverData(s: Half, t: Half, links: map<u16, u16>, others: map<u16, u16>)
    requires Pairs(s, t, links, others) && s.queue != [] && s.queue[0].Data?
    ensures var m := s.queue[0];
            && m.cid in t.channels && BasicChannel(t.channels[m.cid]) && t.channels[m.cid].state == Open
            && |m.sdu| <= t.channels[m.cid].spec.mtu
            && Pairs(Popped(s), Receive(t, m), links, others)
  {
    hide Linked, Project, At, Pair, Touches;
    var m := s.queue[0];
    var c := m.cid;
    ProjectPop(s.queue, To(c));
    Locate(s, t, links, others, c);
    var t', q := Receive(t, m), PortAt(t, s, c);
    if Incoming(q) {
      var x := q.channel.value.destinationCid;
      EmptyProject(To(x));
      LinkedSources(PortAt(s, t, x), q, x, c);
      DeliverPorts(s, t, t', [], x, c);
      assert PortAt(Popped(s), t', x) == PortAt(s, t, x);
      DataToAcceptor(PortAt(s, t, x), q, PortAt(t', Popped(s), c), m);
      assert links[x := c] == links;
      LinkStep(s, t, Popped(s), t', links, others, x, c);
    } else {
      var y := others[c];
      EmptyProject(To(y));
      LinkedSources(q, PortAt(s, t, y), c, y);
      DeliverPorts(s, t, t', [], y, c);
      assert PortAt(Popped(s), t', y) == PortAt(s, t, y);
      TouchesBack(s, t, Popped(s), t', y, c);
      DataToInitiator(q, PortAt(s, t, y), PortAt(t', Popped(s), c), m);
      assert others[c := y] == others;
      LinkStep(t, s, t', Popped(s), others, links, c, y);
    }
  }

  // The initiator a connection request comes from.
  lemma RequestFits(s: Half, t: Half, links: map<u16, u16>, x: u16)
    requires Pair(s, t, links) && PortAt(s, t, x).requests != []
    ensures var p := PortAt(s, t, x);
            Outgoing(p) && PortOk(x, p) && x !in links && Unlinked(p) && |p.requests| == 1 && p.inbox == []
  {
    assert InitiatorOk(s, t, links, x);
  }

  lemma DeliverRefused(s: Half, t: Half, links: map<u16, u16>, others: map<u16, u16>, result: u16)
    requires Pairs(s, t, links, others) && s.queue != [] && s.queue[0].Request? && result != SUCCESS
    ensures Pairs(Popped(s), t.(queue := t.queue + [Response(0, s.queue[0].source, result)]), links, others)
  {
    hide Linked, Project, At, Pair, Touches;
    var x := s.queue[0].source;
    var added := [Response(0, x, result)];
    var t' := t.(queue := t.queue + added);
    ProjectPop(s.queue, From(x));
    RequestFits(s, t, links, x);
    ProjectOne(added[0], To(x));
    DeliverPorts(s, t, t', added, x, 0);
    SoloStep(s, t, Popped(s), t', links, others, x);
  }

  lemma DeliverAccepted(s: Half, t: Half, links: map<u16, u16>, others: map<u16, u16>, y: u16, spec: ChannelSpec)
    requires Pairs(s, t, links, others) && s.queue != [] && s.queue[0].Request?
    requires y !in t.channels && y >= FIRST_CID && spec.Basic? && ValidSpec(spec)
    ensures var x := s.queue[0].source;
            var t' := t.(channels := t.channels[y := IncomingChannel(s.queue[0].psm, y, x, spec)],
                         queue := t.queue + [Response(y, x, SUCCESS), Propose(x, spec.mtu)]);
            Pairs(Popped(s), t', links[x := y], others)
  {
    hide Linked, Project, At, Pair, Touches;
    var x := s.queue[0].source;
    var added := [Response(y, x, SUCCESS), Propose(x, spec.mtu)];
    var t' := t.(channels := t.channels[y := IncomingChannel(s.queue[0].psm, y, x, spec)], queue := t.queue + added);
    ProjectPop(s.queue, From(x));
    RequestFits(s, t, links, x);
    Vacant(t, s, others, y);
    assert added == [added[0]] + [added[1]];
    ProjectAppend([added[0]], [added[1]], To(x));
    ProjectOne(added[0], To(x));
    ProjectOne(added[1], To(x));
    DeliverPorts(s, t, t', added, x, y);
    AcceptStep(x, PortAt(s, t, x), PortAt(t, s, y), PortAt(Popped(s), t', x), PortAt(t', Popped(s), y), s.queue[0].psm,
               spec, y);
    LinkStep(s, t, Popped(s), t', links, others, x, y);
  }

  lemma Vacant(t: Half, s: Half, others: map<u16, u16>, y: u16)
    requires Pair(t, s, others) && y !in t.channels
    ensures PortAt(t, s, y) == Port(None, [], [], [], []) && PortOk(y, PortAt(t, s, y)) && y !in others
  {
    assert InitiatorOk(t, s, others, y);
  }

  lemma DeliverInquiry(s: Half, t: Half, links: map<u16, u16>, others: map<u16, u16>, added: seq<Message>)
    requires Pairs(s, t, links, others) && s.queue != [] && s.queue[0].Inquiry? && (added == [] || added == [Inquiry])
    ensures Pairs(Popped(s), t.(queue := t.queue + added), links, others)
  {
    hide Linked, Project, At, Pair;
    var t' := t.(queue := t.queue + added);
    EmptyProject(To(0));
    ProjectOne(Inquiry, To(0));
    DeliverPorts(s, t, t', added, 0, 0);
    SamePorts(s, t, Popped(s), t', links, others);
  }

  // ---------------------------------------------------------------------------
  // Calls
  // ---------------------------------------------------------------------------

  lemma CallConnect(s: Half, t: Half, links: map<u16, u16>, others: map<u16, u16>, psm: u32, x: u16, spec: ChannelSpec)
    requires Pairs(s, t, links, others)
    requires x !in s.channels && x >= FIRST_CID && spec.Basic? && ValidSpec(spec)
    ensures Pairs(s.(channels := s.channels[x := OutgoingChannel(psm, x, spec)], queue := s.queue + [Request(psm, x)]),
                  t, links, others)
  {
    hide Linked, Project, At, Pair;
    var added := [Request(psm, x)];
    var s' := s.(channels := s.channels[x := OutgoingChannel(psm, x, spec)], queue := s.queue + added);
    Vacant(s, t, links, x);
    ProjectOne(added[0], From(x));
    ProjectOne(added[0], To(0));
    CallPorts(s, t, s', added, x, 0);
    SoloStep(s, t, s', t, links, others, x);
  }

  // The partner of an open end.
  lemma OpenFits(s: Half, t: Half, links: map<u16, u16>, others: map<u16, u16>, c: u16)
    requires Pairs(s, t, links, others) && c in s.channels && s.channels[c].state == Open
    ensures var p, d := PortAt(s, t, c), s.channels[c].destinationCid;
            && p.channel == Some(s.channels[c]) && PortOk(c, p) && PortOk(d, PortAt(t, s, d)) && d in t.channels
            && (if Outgoing(p) then c in links && links[c] == d && Linked(p, PortAt(t, s, d))
                else d in others && others[d] == c && Outgoing(PortAt(t, s, d)) && Linked(PortAt(t, s, d), p))
  {
    hide Linked, Project, At;
    assert InitiatorOk(s, t, links, c) && AcceptorOk(t, s, others, c);
    var p, d := PortAt(s, t, c), s.channels[c].destinationCid;
    assert InitiatorOk(t, s, others, d);
    if Outgoing(p) {
      assert InitiatorOk(t, s, others, links[c]);
      LinkedNames(c, p, PortAt(t, s, links[c]));
      LinkedSources(p, PortAt(t, s, links[c]), c, links[c]);
    }
  }

  lemma CallSend(s: Half, t: Half, links: map<u16, u16>, others: map<u16, u16>, c: u16, sdu: seq<byte>)
    requires Pairs(s, t, links, others) && c in s.channels && s.channels[c].state == Open
             && |sdu| <= s.channels[c].peerMtu
    ensures Pairs(s.(sent := Log(s.sent, c, sdu), queue := s.queue + [Data(s.channels[c].destinationCid, sdu)]), t,
                  links, others)
  {
    hide Linked, Project, Pair, Touches;
    OpenFits(s, t, links, others, c);
    var p, d := PortAt(s, t, c), s.channels[c].destinationCid;
    var q := PortAt(t, s, d);
    var added := [Data(d, sdu)];
    var s' := s.(sent := Log(s.sent, c, sdu), queue := s.queue + added);
    ProjectOne(added[0], From(c));
    ProjectOne(added[0], To(d));
    CallPorts(s, t, s', added, c, d);
    assert PortAt(s', t, c) == p.(sent := p.sent + [sdu]);
    if Outgoing(p) {
      SendByInitiator(p, q, sdu);
      assert links[c := d] == links;
      LinkStep(s, t, s', t, links, others, c, d);
    } else {
      SendByAcceptor(q, p, sdu);
      TouchesBack(s, t, s', t, c, d);
      assert others[d := c] == others;
      LinkStep(t, s, t, s', others, links, d, c);
    }
  }

  lemma CallTake(s: Half, t: Half, links: map<u16, u16>, others: map<u16, u16>, c: u16)
    requires Pairs(s, t, links, others) && c in s.channels && s.channels[c].received != []
    ensures var r := s.channels[c].received;
            Pairs(s.(channels := s.channels[c := s.channels[c].(received := r[1..])], taken := Log(s.taken, c, r[0])),
                  t, links, others)
  {
    hide Linked, Project, Pair, Touches;
    var r := s.channels[c].received;
    var s' := s.(channels := s.channels[c := s.channels[c].(received := r[1..])], taken := Log(s.taken, c, r[0]));
    HasPartner(s, t, links, others, c);
    var p := PortAt(s, t, c);
    var d := if Outgoing(p) then links[c] else s.channels[c].destinationCid;
    var q := PortAt(t, s, d);
    assert s'.queue == s.queue + [];
    EmptyProject(From(c));
    EmptyProject(To(d));
    CallPorts(s, t, s', [], c, d);
    assert PortAt(s', t, c) == Taken(p) && PortAt(t, s', d) == q;
    if Outgoing(p) {
      TakeStep(p, q);
      assert links[c := d] == links;
      LinkStep(s, t, s', t, links, others, c, d);
    } else {
      TakeStep(q, p);
      TouchesBack(s, t, s', t, c, d);
      assert others[d := c] == others;
      LinkStep(t, s, t, s', others, links, d, c);
    }
  }

  // An end that has received something is linked.
  lemma HasPartner(s: Half, t: Half, links: map<u16, u16>, others: map<u16, u16>, c: u16)
    requires Pairs(s, t, links, others) && c in s.channels && s.channels[c].received != []
    ensures var p, d := PortAt(s, t, c), s.channels[c].destinationCid;
            && p.channel == Some(s.channels[c]) && PortOk(c, p)
            && (if Outgoing(p) then
                  c in links && PortOk(links[c], PortAt(t, s, links[c])) && Linked(p, PortAt(t, s, links[c]))
                else
                  && d in others && others[d] == c && Outgoing(PortAt(t, s, d)) && PortOk(d, PortAt(t, s, d))
                  && Linked(PortAt(t, s, d), p))
  {
    hide Linked, Project, At;
    assert InitiatorOk(s, t, links, c) && AcceptorOk(t, s, others, c);
    if Outgoing(PortAt(s, t, c)) {
      assert InitiatorOk(t, s, others, links[c]);
    } else {
      assert InitiatorOk(t, s, others, s.channels[c].destinationCid);
    }
  }

  lemma CallInquire(s: Half, t: Half, links: map<u16, u16>, others: map<u16, u16>)
    requires Pairs(s, t, links, others)
    ensures Pairs(s.(queue := s.queue + [Inquiry]), t, links, others)
  {
    hide Linked, Project, At, Pair;
    var s' := s.(queue := s.queue + [Inquiry]);
    ProjectOne(Inquiry, From(0));
    ProjectOne(Inquiry, To(0));
    CallPorts(s, t, s', [Inquiry], 0, 0);
    SamePorts(s, t, s', t, links, others);
  }

  // ---------------------------------------------------------------------------
  // The invariant of the two sides
  // ---------------------------------------------------------------------------

  predicate ServersOk(servers: map<u32, ChannelSpec>) {
    forall psm <- servers :: servers[psm].Basic? && ValidSpec(servers[psm])
  }

  predicate Clear(queue: seq<Message>) {
    forall i :: 0 <= i < |queue| ==> !queue[i].Garbage?
  }

  ghost predicate Inv(s: Side, t: Side, links: map<u16, u16>, others: map<u16, u16>) {
    && Pairs(HalfOf(s), HalfOf(t), links, others)
    && ServersOk(s.manager.servers) && ServersOk(t.manager.servers)
    && Clear(HalfOf(s).queue) && Clear(HalfOf(t).queue)
    && Fits(s.manager.outbound) && Fits(t.manager.outbound)
  }

  lemma InvBasic(s: Side, t: Side, links: map<u16, u16>, others: map<u16, u16>)
    requires Inv(s, t, links, others)
    ensures BasicManager(s.manager) && EnginesValid(s.manager)
    ensures BasicManager(t.manager) && EnginesValid(t.manager)
    ensures forall c <- s.manager.channels :: s.manager.channels[c].state == Open ==>
            s.manager.channels[c].destinationCid >= FIRST_CID
  {
    hide Linked, Project, At, Unlinked, Messages;
    forall c <- s.manager.channels
      ensures BasicChannel(s.manager.channels[c])
           && (s.manager.channels[c].state == Open ==> s.manager.channels[c].destinationCid >= FIRST_CID)
    {
      assert InitiatorOk(HalfOf(s), HalfOf(t), links, c);
    }
    forall c <- t.manager.channels ensures BasicChannel(t.manager.channels[c]) {
      assert InitiatorOk(HalfOf(t), HalfOf(s), others, c);
    }
  }

  lemma Cleared(queue: seq<Message>, more: seq<Message>)
    requires Clear(queue) && Clear(more)
    ensures Clear(queue + more)
    ensures queue != [] ==> Clear(queue[1..])
  {
  }

  /** What an effect on a side's manager makes of the side's half. */
  lemma EffectOnHalf(s: Side, n: Manager, channels: map<u16, Channel>, queued: seq<Message>)
    requires Effect(s.manager, n, channels, queued)
    ensures HalfOf(s.(manager := n)) == HalfOf(s).(channels := channels, queue := HalfOf(s).queue + queued)
  {
  }

  lemma HeadOfHalf(s: Side)
    requires s.manager.outbound != []
    ensures HalfOf(s).queue != [] && HalfOf(s).queue[0] == Read(s.manager.outbound[0])
    ensures HalfOf(s.(manager := PollOutbound(s.manager))) == Popped(HalfOf(s))
  {
    MessagesTail(s.manager.outbound);
  }

  // The head of `s`'s queue, processed by `t`: not rejected, and the invariant still holds.
  ghost predicate Arrival(s: Side, t: Side, links: map<u16, u16>, others: map<u16, u16>)
    requires s.manager.outbound != []
  {
    var r := ProcessPdu(t.manager, s.manager.outbound[0]);
    && r.error.None? && r.manager.servers == t.manager.servers
    && Clear(HalfOf(t.(manager := r.manager)).queue) && Fits(r.manager.outbound)
    && HalfOf(s).queue != [] && Pairs(Popped(HalfOf(s)), HalfOf(t.(manager := r.manager)), links, others)
  }

  // What the cases below share.
  ghost predicate Ready(s: Side, t: Side, links: map<u16, u16>, others: map<u16, u16>, m: Message) {
    && Pairs(HalfOf(s), HalfOf(t), links, others) && BasicManager(t.manager) && Clear(HalfOf(t).queue)
       && Fits(t.manager.outbound)
    && s.manager.outbound != [] && Read(s.manager.outbound[0]) == m
  }

  /** A half that comes out of an effect. */
  lemma Arrives(s: Side, t: Side, links: map<u16, u16>, others: map<u16, u16>, channels: map<u16, Channel>,
                queued: seq<Message>)
    requires s.manager.outbound != [] && Clear(HalfOf(t).queue) && Clear(queued) && Fits(t.manager.outbound)
    requires var r := ProcessPdu(t.manager, s.manager.outbound[0]);
             r.error.None? && Effect(t.manager, r.manager, channels, queued)
    requires HalfOf(s).queue != []
             && Pairs(Popped(HalfOf(s)), HalfOf(t).(channels := channels, queue := HalfOf(t).queue + queued), links,
                      others)
    ensures Arrival(s, t, links, others)
  {
    hide Pairs, ProcessPdu, HalfOf;
    EffectOnHalf(t, ProcessPdu(t.manager, s.manager.outbound[0]).manager, channels, queued);
    Cleared(HalfOf(t).queue, queued);
  }

  lemma RequestArrives(s: Side, t: Side, links: map<u16, u16>, others: map<u16, u16>, m: Message)
    returns (links': map<u16, u16>)
    requires Ready(s, t, links, others, m) && m.Request?
    ensures Arrival(s, t, links', others)
  {
    hide Pairs, ProcessPdu, Read, HalfOf, BasicManager, Arrival, IncomingChannel;
    HeadOfHalf(s);
    HalfFields(t);
    RequestEffect(t.manager, s.manager.outbound[0]);
    var psm, x, y := m.psm, m.source, FreeCid(t.manager.channels, FIRST_CID);
    links' := links;
    if psm in t.manager.servers && y.Some? {
      var spec := t.manager.servers[psm];
      assert spec.Basic? && ValidSpec(spec) by { BasicServer(t.manager, psm); }
      links' := links[x := y.value];
      DeliverAccepted(HalfOf(s), HalfOf(t), links, others, y.value, spec);
      Arrives(s, t, links', others, t.manager.channels[y.value := IncomingChannel(psm, y.value, x, spec)],
              [Response(y.value, x, SUCCESS), Propose(x, spec.mtu)]);
    } else {
      var result := if psm in t.manager.servers then REFUSED_RESOURCES else REFUSED_PSM;
      DeliverRefused(HalfOf(s), HalfOf(t), links, others, result);
      Arrives(s, t, links, others, t.manager.channels, [Response(0, x, result)]);
    }
  }

  lemma BasicServer(m: Manager, psm: u32)
    requires BasicManager(m) && psm in m.servers
    ensures m.servers[psm].Basic? && ValidSpec(m.servers[psm])
  {
  }

  lemma ResponseArrives(s: Side, t: Side, links: map<u16, u16>, others: map<u16, u16>, m: Message)
    requires Ready(s, t, links, others, m) && m.Response?
    ensures Arrival(s, t, links, others)
  {
    hide Pairs, ProcessPdu, Read, HalfOf, BasicManager, Arrival, Answered;
    HeadOfHalf(s);
    HalfFields(t);
    DeliverResponse(HalfOf(s), HalfOf(t), links, others);
    ResponseEffect(t.manager, s.manager.outbound[0]);
    var queued := if m.result == SUCCESS then [Propose(m.destination, t.manager.channels[m.source].spec.mtu)] else [];
    Arrives(s, t, links, others, Respond(HalfOf(t), m).channels, queued);
  }

  lemma ProposeArrives(s: Side, t: Side, links: map<u16, u16>, others: map<u16, u16>, m: Message)
    requires Ready(s, t, links, others, m) && m.Propose?
    ensures Arrival(s, t, links, others)
  {
    hide Pairs, ProcessPdu, Read, HalfOf, BasicManager, Arrival, Opened;
    HeadOfHalf(s);
    HalfFields(t);
    DeliverPropose(HalfOf(s), HalfOf(t), links, others);
    ProposeEffect(t.manager, s.manager.outbound[0]);
    Arrives(s, t, links, others, Configure(HalfOf(t), m).channels,
            [Agree(t.manager.channels[m.destination].destinationCid)]);
  }

  lemma AgreeArrives(s: Side, t: Side, links: map<u16, u16>, others: map<u16, u16>, m: Message)
    requires Ready(s, t, links, others, m) && m.Agree?
    ensures Arrival(s, t, links, others)
  {
    hide Pairs, ProcessPdu, Read, HalfOf, BasicManager, Arrival, Opened;
    HeadOfHalf(s);
    HalfFields(t);
    DeliverAgree(HalfOf(s), HalfOf(t), links, others);
    AgreeEffect(t.manager, s.manager.outbound[0]);
    Arrives(s, t, links, others, Confirm(HalfOf(t), m).channels, []);
  }

  lemma DataArrives(s: Side, t: Side, links: map<u16, u16>, others: map<u16, u16>, m: Message)
    requires Ready(s, t, links, others, m) && m.Data?
    ensures Arrival(s, t, links, others)
  {
    hide Pairs, ProcessPdu, Read, HalfOf, BasicManager, Arrival;
    HeadOfHalf(s);
    HalfFields(t);
    DeliverData(HalfOf(s), HalfOf(t), links, others);
    DataReads(s.manager.outbound[0]);
    DataEffect(t.manager, s.manager.outbound[0]);
    Arrives(s, t, links, others, Receive(HalfOf(t), m).channels, []);
  }

  lemma InquiryArrives(s: Side, t: Side, links: map<u16, u16>, others: map<u16, u16>, m: Message)
    requires Ready(s, t, links, others, m) && m.Inquiry?
    ensures Arrival(s, t, links, others)
  {
    hide Pairs, ProcessPdu, Read, HalfOf, BasicManager, Arrival;
    HeadOfHalf(s);
    HalfFields(t);
    InquiryEffect(t.manager, s.manager.outbound[0]);
    var r := ProcessPdu(t.manager, s.manager.outbound[0]);
    var queued := if Effect(t.manager, r.manager, t.manager.channels, []) then [] else [Inquiry];
    DeliverInquiry(HalfOf(s), HalfOf(t), links, others, queued);
    Arrives(s, t, links, others, t.manager.channels, queued);
  }

  lemma HeadArrives(s: Side, t: Side, links: map<u16, u16>, others: map<u16, u16>, m: Message)
    returns (links': map<u16, u16>)
    requires Ready(s, t, links, others, m) && !m.Garbage?
    ensures s.manager.outbound != [] && Arrival(s, t, links', others)
  {
    assert s.manager.outbound != [];
    hide Ready, Arrival;
    links' := links;
    match m
    case Request(_, _) => links' := RequestArrives(s, t, links, others, m);
    case Response(_, _, _) => ResponseArrives(s, t, links, others, m);
    case Propose(_, _) => ProposeArrives(s, t, links, others, m);
    case Agree(_) => AgreeArrives(s, t, links, others, m);
    case Data(_, _) => DataArrives(s, t, links, others, m);
    case Inquiry => InquiryArrives(s, t, links, others, m);
  }

  /** Nothing that is delivered is rejected, and the delivery keeps the invariant. */
  lemma DeliverKeeps(s: Side, t: Side, links: map<u16, u16>, others: map<u16, u16>) returns (links': map<u16, u16>)
    requires Inv(s, t, links, others) && s.manager.outbound != []
    ensures var r := ProcessPdu(t.manager, s.manager.outbound[0]);
            r.error.None? && Inv(s.(manager := PollOutbound(s.manager)), t.(manager := r.manager), links', others)
  {
    InvBasic(s, t, links, others);
    hide Pairs, ProcessPdu, Read, HalfOf, BasicManager;
    HeadOfHalf(s);
    links' := HeadArrives(s, t, links, others, Read(s.manager.outbound[0]));
    Cleared(HalfOf(s).queue, []);
  }

  lemma HalfFields(t: Side)
    ensures HalfOf(t).channels == t.manager.channels
  {
  }

  lemma DataReads(pdu: Pdu)
    requires Read(pdu).Data?
    ensures Read(pdu) == Data(pdu.cid, pdu.payload)
  {
  }

  /** Every act of a side keeps the invariant. */
  lemma PerformKeeps(s: Side, t: Side, links: map<u16, u16>, others: map<u16, u16>, act: Act)
    returns (links': map<u16, u16>)
    requires Inv(s, t, links, others) && Legal(act)
    ensures EnginesValid(s.manager)
    ensures Inv(Perform(s, t, act).0, Perform(s, t, act).1, links', others)
  {
    InvBasic(s, t, links, others);
    links' := links;
    match act
    case Register(psm, spec) => RegisterKeeps(s, t, links, others, psm, spec, 0);
    case Unregister(psm) => RegisterKeeps(s, t, links, others, None, Basic(0), psm);
    case ConnectTo(psm, spec) => ConnectKeeps(s, t, links, others, psm, spec);
    case SendSdu(cid, sdu) => SendKeeps(s, t, links, others, cid, sdu);
    case TakeReceived(cid) =>
      if cid in s.manager.channels && s.manager.channels[cid].received != [] { TakeKeeps(s, t, links, others, cid); }
    case TakeAccepted => SameKeeps(s, t, links, others, PollAccepted(s.manager));
    case Inquire(infoType) => InquireKeeps(s, t, links, others, infoType);
    case Deliver => if s.manager.outbound != [] { links' := DeliverKeeps(s, t, links, others); }
  }

  lemma SameKeeps(s: Side, t: Side, links: map<u16, u16>, others: map<u16, u16>, n: Manager)
    requires Inv(s, t, links, others) && ServersOk(n.servers)
    requires n.channels == s.manager.channels && n.outbound == s.manager.outbound
    ensures Inv(s.(manager := n), t, links, others)
  {
  }

  lemma RegisterKeeps(s: Side, t: Side, links: map<u16, u16>, others: map<u16, u16>,
                      psm: Option<u32>, spec: ChannelSpec, server: u32)
    requires Inv(s, t, links, others) && spec.Basic?
    ensures Inv(s.(manager := RegisterServer(s.manager, psm, spec).0), t, links, others)
    ensures Inv(s.(manager := UnregisterServer(s.manager, server)), t, links, others)
  {
    hide Pairs, Inv, FreePsm, ValidPsm, Clear;
    assert ServersOk(s.manager.servers) by { InvServers(s, t, links, others); }
    SameKeeps(s, t, links, others, RegisterServer(s.manager, psm, spec).0);
    SameKeeps(s, t, links, others, UnregisterServer(s.manager, server));
  }

  lemma InvServers(s: Side, t: Side, links: map<u16, u16>, others: map<u16, u16>)
    requires Inv(s, t, links, others)
    ensures ServersOk(s.manager.servers)
  {
  }

  lemma ConnectKeeps(s: Side, t: Side, links: map<u16, u16>, others: map<u16, u16>, psm: u32, spec: ChannelSpec)
    requires Inv(s, t, links, others) && spec.Basic? && psm <= 0xFFFF
    ensures Inv(s.(manager := Connect(s.manager, psm, spec).0), t, links, others)
  {
    hide Pairs, Connect, HalfOf;
    ConnectEffect(s.manager, psm, spec);
    var (n, r) := Connect(s.manager, psm, spec);
    if r.Success? {
      HalfFields(s);
      CallConnect(HalfOf(s), HalfOf(t), links, others, psm, r.value, spec);
      EffectOnHalf(s, n, s.manager.channels[r.value := OutgoingChannel(psm, r.value, spec)], [Request(psm, r.value)]);
      Cleared(HalfOf(s).queue, [Request(psm, r.value)]);
    }
  }

  lemma SendKeeps(s: Side, t: Side, links: map<u16, u16>, others: map<u16, u16>, cid: u16, sdu: seq<byte>)
    requires Inv(s, t, links, others) && EnginesValid(s.manager)
    ensures var r := Send(s.manager, cid, sdu);
            Inv(Side(r.manager, if r.error.None? then Log(s.sent, cid, sdu) else s.sent, s.taken), t, links, others)
  {
    InvBasic(s, t, links, others);
    hide Pairs, Send, HalfOf, BasicManager, Log;
    SendEffect(s.manager, cid, sdu);
    var r := Send(s.manager, cid, sdu);
    if r.error.None? {
      HalfFields(s);
      var m := Data(s.manager.channels[cid].destinationCid, sdu);
      CallSend(HalfOf(s), HalfOf(t), links, others, cid, sdu);
      EffectOnHalf(s, r.manager, s.manager.channels, [m]);
      SentOnHalf(s.(manager := r.manager), Log(s.sent, cid, sdu));
      SentOnHalf(s, Log(s.sent, cid, sdu));
      Cleared(HalfOf(s).queue, [m]);
    }
  }

  lemma SentOnHalf(s: Side, sent: map<u16, seq<seq<byte>>>)
    ensures HalfOf(s.(sent := sent)) == HalfOf(s).(sent := sent)
    ensures HalfOf(s).sent == s.sent
  {
  }

  lemma TakeKeeps(s: Side, t: Side, links: map<u16, u16>, others: map<u16, u16>, cid: u16)
    requires Inv(s, t, links, others) && cid in s.manager.channels && s.manager.channels[cid].received != []
    ensures Inv(Side(PopReceived(s.manager, cid), s.sent, Log(s.taken, cid, s.manager.channels[cid].received[0])), t,
                links, others)
  {
    hide Pairs, Log;
    CallTake(HalfOf(s), HalfOf(t), links, others, cid);
  }

  lemma InquireKeeps(s: Side, t: Side, links: map<u16, u16>, others: map<u16, u16>, infoType: u16)
    requires Inv(s, t, links, others)
    ensures Inv(s.(manager := RequestInformation(s.manager, infoType)), t, links, others)
  {
    hide Pairs, RequestInformation, HalfOf;
    InquireEffect(s.manager, infoType);
    CallInquire(HalfOf(s), HalfOf(t), links, others);
    HalfFields(s);
    EffectOnHalf(s, RequestInformation(s.manager, infoType), s.manager.channels, [Inquiry]);
    Cleared(HalfOf(s).queue, [Inquiry]);
  }

  // ---------------------------------------------------------------------------
  // Whole runs
  // ---------------------------------------------------------------------------

  function NewSide(information: Capabilities): Side { Side(New(information), map[], map[]) }

  ghost predicate Run(states: seq<System>, moves: seq<Move>, a: Capabilities, b: Capabilities) {
    && |states| == |moves| + 1
    && states[0] == System(NewSide(a), NewSide(b))
    && forall i :: 0 <= i < |moves| ==>
         && Legal(moves[i].act)
         && EnginesValid(states[i].a.manager) && EnginesValid(states[i].b.manager)
         && states[i + 1] == Step(states[i], moves[i])
  }

  lemma FreshInv(a: Capabilities, b: Capabilities)
    ensures Inv(NewSide(a), NewSide(b), map[], map[])
  {
    var s, t := HalfOf(NewSide(a)), HalfOf(NewSide(b));
    assert forall x: u16 :: PortAt(s, t, x) == Port(None, [], [], [], []);
    assert forall x: u16 :: PortAt(t, s, x) == Port(None, [], [], [], []);
  }

  lemma InvBack(s: Side, t: Side, links: map<u16, u16>, others: map<u16, u16>)
    requires Inv(s, t, links, others)
    ensures Inv(t, s, others, links)
  {
    hide Pair;
  }

  lemma {:induction false} RunKeeps(states: seq<System>, moves: seq<Move>, a: Capabilities, b: Capabilities, n: nat)
    returns (links: map<u16, u16>, others: map<u16, u16>)
    requires Run(states, moves, a, b) && n < |states|
    ensures Inv(states[n].a, states[n].b, links, others)
  {
    if n == 0 {
      FreshInv(a, b);
      links, others := map[], map[];
    } else {
      hide Inv, Perform;
      links, others := RunKeeps(states, moves, a, b, n - 1);
      var sys, move := states[n - 1], moves[n - 1];
      assert states[n - 1 + 1] == Step(sys, move);
      if move.byA {
        links := PerformKeeps(sys.a, sys.b, links, others, move.act);
      } else {
        InvBack(sys.a, sys.b, links, others);
        others := PerformKeeps(sys.b, sys.a, others, links, move.act);
        InvBack(states[n].b, states[n].a, others, links);
      }
    }
  }

  /** What holds of the channels of `s` against those of `t`. */
  ghost predicate Safe(s: Side, t: Side) {
    && (forall x <- s.manager.channels :: s.manager.channels[x].state == Open ==> Mirrored(s, t, x))
    && (forall x <- s.manager.channels ::
          s.manager.channels[x].state != Open ==> Delivered(s, x) == [] && At(s.sent, x) == [])
    && (s.manager.outbound != [] ==> ProcessPdu(t.manager, s.manager.outbound[0]).error.None?)
  }

  // All that has ever arrived at a channel.
  function Delivered(s: Side, x: u16): seq<seq<byte>>
    requires x in s.manager.channels
  {
    At(s.taken, x) + s.manager.channels[x].received
  }

  // The channel at the other end names this one, its MTU is known here, and what has arrived is what it sent, in order.
  predicate Mirrored(s: Side, t: Side, x: u16)
    requires x in s.manager.channels
  {
    var c := s.manager.channels[x];
    && c.destinationCid in t.manager.channels
    && var d := t.manager.channels[c.destinationCid];
    && d.destinationCid == x && d.psm == c.psm
    && c.peerMtu == d.spec.mtu
    && Delivered(s, x) <= At(t.sent, c.destinationCid)
  }

  /** An end of a link, seen from the system. */
  lemma OpenIsMirrored(s: Side, t: Side, links: map<u16, u16>, others: map<u16, u16>, x: u16)
    requires Inv(s, t, links, others) && x in s.manager.channels && s.manager.channels[x].state == Open
    ensures Mirrored(s, t, x)
  {
    hide Pairs, Messages, Project;
    OpenFits(HalfOf(s), HalfOf(t), links, others, x);
  }

  lemma ClosedIsSilent(s: Side, t: Side, links: map<u16, u16>, others: map<u16, u16>, x: u16)
    requires Inv(s, t, links, others) && x in s.manager.channels && s.manager.channels[x].state != Open
    ensures Delivered(s, x) == [] && At(s.sent, x) == []
  {
    hide Messages, Project;
    var hs, ht := HalfOf(s), HalfOf(t);
    assert InitiatorOk(hs, ht, links, x) && AcceptorOk(ht, hs, others, x);
    if Incoming(PortAt(hs, ht, x)) {
      var y := s.manager.channels[x].destinationCid;
      assert InitiatorOk(ht, hs, others, y);
    }
  }

  /** In every run: open ends mirror each other, SDUs arrive in order, nothing delivered is ever rejected. */
  lemma TwoManagers(states: seq<System>, moves: seq<Move>, a: Capabilities, b: Capabilities, n: nat)
    requires Run(states, moves, a, b) && n < |states|
    ensures Safe(states[n].a, states[n].b) && Safe(states[n].b, states[n].a)
  {
    var links, others := RunKeeps(states, moves, a, b, n);
    hide Inv, Run, ProcessPdu, Mirrored;
    InvBack(states[n].a, states[n].b, links, others);
    InvIsSafe(states[n].a, states[n].b, links, others);
    InvIsSafe(states[n].b, states[n].a, others, links);
  }

  lemma InvIsSafe(s: Side, t: Side, links: map<u16, u16>, others: map<u16, u16>)
    requires Inv(s, t, links, others)
    ensures Safe(s, t)
  {
    hide Inv, ProcessPdu, Mirrored, Delivered;
    forall x <- s.manager.channels | s.manager.channels[x].state == Open ensures Mirrored(s, t, x) {
      OpenIsMirrored(s, t, links, others, x);
    }
    forall x <- s.manager.channels | s.manager.channels[x].state != Open
      ensures Delivered(s, x) == [] && At(s.sent, x) == []
    {
      ClosedIsSilent(s, t, links, others, x);
    }
    if s.manager.outbound != [] { var _ := DeliverKeeps(s, t, links, others); }
  }

  /** With both queues empty every handshake has ended, and every SDU sent has arrived. */
  lemma NothingPending(states: seq<System>, moves: seq<Move>, a: Capabilities, b: Capabilities, n: nat, x: u16)
    requires Run(states, moves, a, b) && n < |states|
    requires states[n].a.manager.outbound == [] && states[n].b.manager.outbound == []
    requires x in states[n].a.manager.channels
    ensures var s, t := states[n].a, states[n].b;
            var c := s.manager.channels[x];
            && c.state in {Open, Closed}
            && (c.incoming ==> c.state == Open)
            && (c.state == Open ==>
                  && c.destinationCid in t.manager.channels && t.manager.channels[c.destinationCid].state == Open
                  && Delivered(s, x) == At(t.sent, c.destinationCid))
  {
    var links, others := RunKeeps(states, moves, a, b, n);
    hide Run, Inv;
    SettledEnd(states[n].a, states[n].b, links, others, x);
  }

  lemma SettledEnd(s: Side, t: Side, links: map<u16, u16>, others: map<u16, u16>, x: u16)
    requires Inv(s, t, links, others) && s.manager.outbound == [] && t.manager.outbound == [] && x in s.manager.channels
    ensures var c := s.manager.channels[x];
            && c.state in {Open, Closed}
            && (c.incoming ==> c.state == Open)
            && (c.state == Open ==>
                  && c.destinationCid in t.manager.channels && t.manager.channels[c.destinationCid].state == Open
                  && Delivered(s, x) == At(t.sent, c.destinationCid))
  {
    hide Messages, Linked, Unlinked;
    var hs, ht := HalfOf(s), HalfOf(t);
    assert hs.queue == [] && ht.queue == [];
    assert InitiatorOk(hs, ht, links, x) && AcceptorOk(ht, hs, others, x);
    var p := PortAt(hs, ht, x);
    if Incoming(p) {
      var y := s.manager.channels[x].destinationCid;
      assert InitiatorOk(ht, hs, others, y);
      EmptyLink(PortAt(ht, hs, y), p, y, x);
    } else if x in links {
      LinkedNames(x, p, PortAt(ht, hs, links[x]));
      assert InitiatorOk(ht, hs, others, links[x]);
      EmptyLink(p, PortAt(ht, hs, links[x]), x, links[x]);
    } else {
      EmptyUnlinked(p);
    }
  }

  lemma EmptyUnlinked(p: Port)
    requires p.channel.Some? && Unlinked(p) && p.inbox == [] && p.requests == []
    ensures p.channel.value.state == Closed
  {
  }

  lemma EmptyLink(p: Port, q: Port, x: u16, y: u16)
    requires Linked(p, q) && PortOk(x, p) && PortOk(y, q) && p.inbox == [] && q.inbox == []
    ensures p.channel.value.state == q.channel.value.state == Open
    ensures p.channel.value.destinationCid == y && q.channel.value.destinationCid == x
    ensures Arrived(p) == q.sent && Arrived(q) == p.sent
  {
    assert InFlight(p, q) == [] && InFlight(q, p) == [];
    assert |p.sent[|Arrived(q)|..]| == 0 && |q.sent[|Arrived(p)|..]| == 0;
  }
}
