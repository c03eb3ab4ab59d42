/** What the session promises about connections in every run, for every controller and every application. */
module SessionAdmission {
  import opened Bytes
  import Hci
  import AclFlow
  import Channels
  import opened Host
  import opened HostCalls
  import opened Session

  // What an active session has not sent yet decides no connection: a failed call to send a report can leave output.
  predicate Inv(s: Session) { ValidHost(s.host) && (Active(s) ==> AllPlain(s.host.output)) }

  // ---------------------------------------------------------------------------
  // Draining
  // ---------------------------------------------------------------------------

  // The acceptances among what was sent.
  function Accepts(sent: seq<Sent>): seq<seq<byte>> {
    if sent == [] then []
    else
      var last := sent[|sent| - 1];
      Accepts(sent[..|sent| - 1]) + (if last.CommandSent? && last.opcode == ACCEPT then [last.parameters] else [])
  }

  lemma AcceptsOne(sent: seq<Sent>, packet: Sent)
    ensures Accepts(sent + [packet])
         == Accepts(sent) + (if packet.CommandSent? && packet.opcode == ACCEPT then [packet.parameters] else [])
  {
    assert (sent + [packet])[..|sent|] == sent;
  }

  lemma {:induction false} SendAllAccepts(s: Session, packets: seq<Sent>)
    requires forall i :: 0 <= i < |packets| ==> packets[i].CommandSent? && packets[i].opcode != ACCEPT
    ensures Accepts(SendAll(s, packets).session.sent) == Accepts(s.sent)
    decreases |packets|
  {
    if packets != [] && s.budget > 0 {
      AcceptsOne(s.sent, packets[0]);
      assert Accepts(s.sent) + [] == Accepts(s.sent);
      SendAllAccepts(Send(s, packets[0]).session, packets[1..]);
    }
  }

  // What handling plain output leaves alone.
  predicate Calm(s: Session, t: Session) {
    && t.window == s.window && t.connection == s.connection && t.rejected == s.rejected && t.closed == s.closed
    && Accepts(t.sent) == Accepts(s.sent)
    && Extends(s.events, t.events) && NoneConnected(t.events, |s.events|)
  }

  lemma WorksCalm(s: Session, t: Session)
    requires Works(s, t)
    ensures Calm(s, t)
  {
    hide Grows;
  }

  lemma CalmTransitive(s: Session, t: Session, u: Session)
    requires Calm(s, t) && Calm(t, u)
    ensures Calm(s, u)
  {
    ExtendsTransitive(s.events, t.events, u.events);
  }

  lemma ExtendsTransitive(s: seq<Event>, t: seq<Event>, u: seq<Event>)
    requires Extends(s, t) && Extends(t, u)
    ensures Extends(s, u)
    ensures forall i :: 0 <= i < |t| ==> u[i] == t[i]
  {
    forall i | 0 <= i < |t| ensures u[i] == t[i] { assert u[..|t|][i] == t[i]; }
    assert u[..|s|] == u[..|t|][..|s|];
  }

  // The host's output is plain, except possibly at `k`.
  predicate PlainBut(output: seq<HostOutput>, k: nat) { forall i :: 0 <= i < |output| && i != k ==> Plain(output[i]) }

  lemma DrainOneOutput(s: Session, k: nat)
    requires ValidHost(s.host) && s.host.output != [] && PlainBut(s.host.output, k)
    ensures var out, rest := s.host.output, DrainOne(s).session.host.output;
            && (k == 0 || |out| <= k ==> AllPlain(rest))
            && (0 < k < |out| ==> k - 1 < |rest| && rest[k - 1] == out[k] && PlainBut(rest, k - 1))
  {
    hide ValidHost, DrainOne, Events;
    DrainOneKeeps(s);
    var out, rest := s.host.output, DrainOne(s).session.host.output;
    var n := |out| - 1;
    forall i | 0 <= i < |rest| ensures if i < n then rest[i] == out[i + 1] else Plain(rest[i]) {
      if i < n { assert rest[..n][i] == out[1..][i]; } else { assert rest[i] == rest[n..][i - n]; }
    }
  }

  lemma DrainOneCalm(s: Session)
    requires ValidHost(s.host) && s.host.output != [] && Plain(s.host.output[0])
    ensures Calm(s, DrainOne(s).session)
  {
    hide ValidHost, Works, OnHostEvent, Accepts;
    var popped := s.(host := PopOutput(s.host));
    match s.host.output[0]
    case CommandOut(opcode, parameters) => SendCalm(popped, CommandSent(opcode, parameters));
    case AclOut(packet) => SendCalm(popped, AclSent(packet));
    case EventOut(e) =>
      PopKeeps(s.host);
      PlainEventWorks(popped, e);
      WorksCalm(popped, OnHostEvent(popped, e).session);
  }

  lemma SendCalm(s: Session, packet: Sent)
    requires packet.AclSent? || packet.opcode != ACCEPT
    ensures Calm(s, Send(s, packet).session)
  {
    AcceptsOne(s.sent, packet);
    hide Accepts;
    assert Accepts(s.sent) + [] == Accepts(s.sent);
  }

  /** Plain output, and whatever handling it adds, is handled without touching any connection. */
  lemma {:induction false} DrainPlain(s: Session)
    requires ValidHost(s.host) && AllPlain(s.host.output)
    ensures var r := Drain(s);
            Calm(s, r.session) && AllPlain(r.session.host.output)
    decreases Notices(s.host), |s.host.output|
  {
    hide ValidHost, DrainOne, Notices, Drains, Plain, Accepts;
    if s.host.output != [] {
      DrainOneKeeps(s);
      DrainOneOutput(s, |s.host.output|);
      DrainOneCalm(s);
      var r := DrainOne(s);
      if r.error.None? {
        DrainPlain(r.session);
        CalmTransitive(s, r.session, Drain(r.session).session);
      }
    }
  }

  // Among the events after the first `n` at most one connection is announced, and only to this peer.
  predicate OnlyConnection(events: seq<Event>, n: nat, peer: Address) {
    && (forall i :: n <= i < |events| && events[i].ConnectedTo? ==> events[i].peer == peer)
    && (forall i, j :: n <= i < j < |events| ==> !(events[i].ConnectedTo? && events[j].ConnectedTo?))
  }

  // What handling an output that decides a connection may change.
  predicate Decides(s: Session, out: HostOutput, t: Session) {
    && t.rejected == s.rejected && t.closed == s.closed && Extends(s.events, t.events)
    && match out
       case CommandOut(_, parameters) =>
         && t.window == s.window && t.connection == s.connection && NoneConnected(t.events, |s.events|)
         && (Accepts(t.sent) == Accepts(s.sent) || Accepts(t.sent) == Accepts(s.sent) + [parameters])
       case AclOut(_) => Calm(s, t)
       case EventOut(Connected(peer, handle)) =>
         && Accepts(t.sent) == Accepts(s.sent) && OnlyConnection(t.events, |s.events|, peer)
         && ((t.window == s.window && t.connection == s.connection && NoneConnected(t.events, |s.events|))
             || (t.window == Window.Connected && t.connection == Some((peer, handle))))
       case EventOut(Disconnected(_, _)) =>
         && Accepts(t.sent) == Accepts(s.sent) && NoneConnected(t.events, |s.events|)
         && ((t.window == s.window && t.connection == s.connection) || (t.window == Idle && t.connection == None))
       case EventOut(_) => Calm(s, t)
  }

  lemma CalmDecides(s: Session, out: HostOutput, t: Session)
    requires Calm(s, t)
    ensures Decides(s, out, t)
  {
    hide Accepts;
  }

  lemma CalmThenDecides(s: Session, t: Session, out: HostOutput, u: Session)
    requires Calm(s, t) && Decides(t, out, u)
    ensures Decides(s, out, u)
  {
    hide Accepts;
    ExtendsTransitive(s.events, t.events, u.events);
    forall i | |s.events| <= i < |t.events| ensures !u.events[i].ConnectedTo? { assert u.events[i] == t.events[i]; }
  }

  lemma DecidesThenCalm(s: Session, t: Session, out: HostOutput, u: Session)
    requires Decides(s, out, t) && Calm(t, u)
    ensures Decides(s, out, u)
  {
    hide Accepts;
    ExtendsTransitive(s.events, t.events, u.events);
  }

  lemma QuietenAccepts(s: Session)
    ensures Accepts(SendAll(s, Quieten(s)).session.sent) == Accepts(s.sent)
  {
    hide Accepts, SendAll;
    SendAllAccepts(s, Quieten(s));
  }

  /** The output that decides, when its turn comes. */
  lemma DrainOneDecides(s: Session)
    requires ValidHost(s.host) && s.host.output != []
    ensures Decides(s, s.host.output[0], DrainOne(s).session)
  {
    hide ValidHost, Accepts, SendAll, Quieten;
    var out, popped := s.host.output[0], s.(host := PopOutput(s.host));
    if Plain(out) {
      DrainOneCalm(s);
      CalmDecides(s, out, DrainOne(s).session);
    } else if out.CommandOut? {
      AcceptsOne(s.sent, CommandSent(out.opcode, out.parameters));
    } else if out.event.Connected? {
      var open := popped.(connection := Some((out.event.peer, out.event.handle)), window := Window.Connected,
                          protocols := NO_PROTOCOLS);
      SendAllKeeps(open, Quieten(open));
      QuietenAccepts(open);
    }
  }

  /** One output that decides, whatever plain output stands before and after it. */
  lemma {:induction false} DrainDecides(s: Session, k: nat)
    requires ValidHost(s.host) && k < |s.host.output| && PlainBut(s.host.output, k)
    ensures Decides(s, s.host.output[k], Drain(s).session)
    decreases Notices(s.host), |s.host.output|
  {
    hide ValidHost, DrainOne, Notices, Drains, Plain, Accepts, Decides, Calm;
    var out, r := s.host.output[k], DrainOne(s);
    DrainOneKeeps(s);
    DrainOneOutput(s, k);
    if k == 0 {
      DrainOneDecides(s);
      if r.error.None? {
        DrainPlain(r.session);
        DecidesThenCalm(s, r.session, out, Drain(r.session).session);
      }
    } else {
      assert Plain(s.host.output[0]);
      DrainOneCalm(s);
      CalmDecides(s, out, r.session);
      if r.error.None? {
        DrainDecides(r.session, k - 1);
        CalmThenDecides(s, r.session, out, Drain(r.session).session);
      }
    }
  }

  // ---------------------------------------------------------------------------
  // Dispatching
  // ---------------------------------------------------------------------------

  // An event the host answers with plain output.
  predicate PlainEvent(e: ClassicEvent) {
    !e.ConnectionRequest? && !e.DisconnectionComplete? && (e.ConnectionComplete? ==> e.status != 0)
  }

  lemma PlainEventOutput(h: Host, e: ClassicEvent)
    requires ValidHost(h) && AllPlain(h.output) && PlainEvent(e)
    ensures AllPlain(HandleEvent(h, e).host.output)
  {
    hide AclFlow.Valid, AclFlow.Complete, FlushFlow;
    if e.NumberOfCompletedPackets? {
      AclFlow.CompleteKeeps(h.flow, e.handle, e.completed);
      var r := AclFlow.Complete(h.flow, e.handle, e.completed);
      if r.Success? {
        var g, n := h.(flow := r.value), |h.output|;
        FlushFlowGrows(g);
        PlainPrefix(FlushFlow(g).output, n);
      }
    }
  }

  lemma PlainPrefix(output: seq<HostOutput>, n: nat)
    requires n <= |output| && AllPlain(output[..n]) && AllPlain(output[n..])
    ensures AllPlain(output)
  {
    assert output == output[..n] + output[n..];
  }

  predicate PlainEvents(events: seq<ClassicEvent>) { forall i :: 0 <= i < |events| ==> PlainEvent(events[i]) }

  lemma {:induction false} DispatchPlain(s: Session, events: seq<ClassicEvent>)
    requires ValidHost(s.host) && AllPlain(s.host.output) && PlainEvents(events)
    ensures var r := Dispatch(s, events);
            && Calm(s, r.session) && ValidHost(r.session.host)
            && (r.error.None? ==> AllPlain(r.session.host.output))
    decreases |events|
  {
    hide AclFlow.Valid, Hci.ValidAssembler, Channels.EnginesValid, HandleEvent, Drain, Accepts, AllPlain;
    if events == [] {
      DrainPlain(s);
      DrainKeeps(s);
    } else {
      var r := HandleEvent(s.host, events[0]);
      assert PlainEvent(events[0]);
      PlainEventOutput(s.host, events[0]);
      HandleKeeps(s.host, events[0]);
      if r.error.None? { DispatchPlain(s.(host := r.host), events[1..]); }
    }
  }

  lemma {:induction false} CompletedArePlain(data: seq<byte>)
    requires |data| % 4 == 0
    ensures PlainEvents(CompletedAt(data))
  {
    if data != [] { CompletedArePlain(data[4..]); }
  }

  /** Packets other than requests, successful connections and disconnections decide nothing. */
  lemma OtherEventsArePlain(code: byte, p: seq<byte>)
    requires DecodeEvent(code, p).Some? && code != CONNECTION_REQUEST
    requires code == CONNECTION_COMPLETE ==> p[0] != 0
    requires code == DISCONNECTION_COMPLETE ==> p[0] != 0
    ensures PlainEvents(DecodeEvent(code, p).value)
  {
    if code == 0x13 { CompletedArePlain(p[1..]); }
  }

  // ---------------------------------------------------------------------------
  // One step
  // ---------------------------------------------------------------------------

  // A request for a data link from this peer.
  predicate RequestFrom(move: Move, peer: Address) {
    move.Controller? && move.code == CONNECTION_REQUEST && |move.parameters| == 10
    && move.parameters[9] == 1 && AddressAt(move.parameters, 0) == peer
  }

  // Where a window may go in one step.
  predicate WindowStep(s: Session, t: Session, move: Move) {
    || t.window == s.window || t.window == Idle
    || (t.window == Window.Connected && Expected(s.window).Some?)
    || (s.window == Idle && move.Pair? && t.window == Pairing(None))
    || (s.window == Idle && move.Reconnect? && t.window.Reconnecting? && SoleBond(s.host.bonds) == Some(t.window.peer))
    || (s.window == Pairing(None) && t.window.Pairing? && t.window.latched.Some?
        && RequestFrom(move, t.window.latched.value))
  }

  // What a step may announce: at most one connection, and only to the expected peer.
  predicate Announces(s: Session, t: Session) {
    || t.events == []
    || (Extends(s.events, t.events)
        && if Expected(s.window).Some? then OnlyConnection(t.events, |s.events|, Expected(s.window).value)
           else NoneConnected(t.events, |s.events|))
  }

  // Whom a step may connect the session to.
  predicate Links(s: Session, t: Session) {
    t.connection == s.connection || t.connection.None? || Expected(s.window) == Some(t.connection.value.0)
  }

  // What a step may accept: at most one request, from the peer the window then expects.
  ghost predicate AcceptsOnly(s: Session, t: Session, move: Move) {
    || Accepts(t.sent) == Accepts(s.sent)
    || exists peer ::
         && Accepts(t.sent) == Accepts(s.sent) + [peer + [1]] && RequestFrom(move, peer)
         && Expected(t.window) == Some(peer)
  }

  // The end of the connection with this handle.
  predicate DisconnectionOf(move: Move, handle: u16) {
    move.Controller? && move.code == DISCONNECTION_COMPLETE && |move.parameters| == 4
    && move.parameters[0] == 0 && Le16At(move.parameters, 1) == handle
  }

  // Only its disconnection, or closing the session, makes the session forget a rejected connection.
  predicate Remembers(s: Session, t: Session, move: Move) {
    forall handle <- s.rejected :: handle in t.rejected || move.Shut? || DisconnectionOf(move, handle)
  }

  ghost predicate Good(s: Session, t: Session, move: Move) {
    Inv(t) && WindowStep(s, t, move) && Announces(s, t) && Links(s, t) && AcceptsOnly(s, t, move)
        && Remembers(s, t, move)
  }

  // What a packet's handling may leave, before an error is recorded.
  ghost predicate Settles(s: Session, r: Reply, move: Move) {
    && ValidHost(r.session.host) && (r.error.None? ==> AllPlain(r.session.host.output))
    && WindowStep(s, r.session, move) && Announces(s, r.session) && Links(s, r.session)
    && AcceptsOnly(s, r.session, move) && Remembers(s, r.session, move)
  }

  lemma RecordedIsGood(s: Session, r: Reply, move: Move)
    requires Settles(s, r, move)
    ensures Good(s, Recorded(r).session, move)
  {
    hide Accepts, ValidHost, Expected;
  }

  lemma CalmSettles(s: Session, r: Reply, move: Move)
    requires Calm(s, r.session) && ValidHost(r.session.host) && (r.error.None? ==> AllPlain(r.session.host.output))
    ensures Settles(s, r, move)
  {
    hide Accepts, ValidHost;
  }

  lemma DispatchOne(s: Session, e: ClassicEvent)
    requires ValidHost(s.host)
    ensures var r := HandleEvent(s.host, e);
            && ValidHost(r.host)
            && Dispatch(s, [e]) ==
               if r.error.Some? then Reply(s.(host := r.host), Some(ProtocolViolation)) else Drain(s.(host := r.host))
  {
    hide AclFlow.Valid, Hci.ValidAssembler, Channels.EnginesValid, Drain, HandleEvent;
    var r := HandleEvent(s.host, e);
    HandleKeeps(s.host, e);
    assert [e][1..] == [];
    if r.error.None? { assert Dispatch(s.(host := r.host), []) == Drain(s.(host := r.host)); }
  }

  /** An event whose outcome decides a connection: the deciding output is handled once, or not at all. */
  lemma DispatchDecides(s: Session, e: ClassicEvent, k: nat)
    requires ValidHost(s.host)
    requires var r := HandleEvent(s.host, e);
             r.error.None? ==> k < |r.host.output| && PlainBut(r.host.output, k)
    ensures var h, r := HandleEvent(s.host, e), Dispatch(s, [e]);
            && ValidHost(r.session.host) && (r.error.None? ==> AllPlain(r.session.host.output))
            && (h.error.Some? ==> r.error.Some? && Calm(s, r.session))
            && (h.error.None? ==> Decides(s, h.host.output[k], r.session))
  {
    hide AclFlow.Valid, Hci.ValidAssembler, Channels.EnginesValid, Drain, HandleEvent, Dispatch, Accepts, Plain;
    DispatchOne(s, e);
    var h := HandleEvent(s.host, e);
    if h.error.None? {
      var t := s.(host := h.host);
      DrainKeeps(t);
      DrainDecides(t, k);
      SameButHost(s, t, h.host.output[k], Drain(t).session);
    }
  }

  lemma SameButHost(s: Session, t: Session, out: HostOutput, u: Session)
    requires t == s.(host := t.host) && Decides(t, out, u)
    ensures Decides(s, out, u)
  {
    hide Accepts;
  }

  lemma AcceptOutput(h: Host, peer: Address)
    requires ValidHost(h) && AllPlain(h.output)
    ensures var r := HandleEvent(h, ConnectionRequest(peer));
            && r.error.None? && r.host.output == h.output + [CommandOut(ACCEPT, peer + [1])]
            && PlainBut(r.host.output, |h.output|)
  {
  }

  lemma RequestStep(s: Session, p: seq<byte>)
    requires Inv(s) && Active(s)
    ensures Good(s, Recorded(OnEvent(s, CONNECTION_REQUEST, p)).session, Controller(CONNECTION_REQUEST, p))
  {
    hide Accepts, ValidHost, Drain, Dispatch, HandleEvent;
    var move, r := Controller(CONNECTION_REQUEST, p), OnEvent(s, CONNECTION_REQUEST, p);
    if |p| == 10 {
      var peer := AddressAt(p, 0);
      var (w, accepted) := if p[9] == 1 then Consider(s.window, peer) else (s.window, false);
      if accepted {
        AcceptOutput(s.host, peer);
        DispatchDecides(s.(window := w), ConnectionRequest(peer), |s.host.output|);
        assert Expected(w) == Some(peer) && RequestFrom(move, peer);
      } else {
        RejectAccepts(s, w, peer);
      }
    }
    RecordedIsGood(s, r, move);
  }

  lemma RejectAccepts(s: Session, w: Window, peer: Address)
    ensures Accepts(Send(s.(window := w), CommandSent(REJECT, peer + [0x0F])).session.sent) == Accepts(s.sent)
  {
    AcceptsOne(s.sent, CommandSent(REJECT, peer + [0x0F]));
    assert Accepts(s.sent) + [] == Accepts(s.sent);
  }

  /** A successful connection that is not expected: disconnected, remembered, and nothing else. */
  lemma UnexpectedStep(s: Session, p: seq<byte>)
    requires ValidHost(s.host) && |p| == 11 && Unexpected(s, p)
    ensures var r := OnEvent(s, CONNECTION_COMPLETE, p);
            && r.session.host == s.host && r.session.window == s.window && r.session.events == s.events
            && r.session.connection == s.connection && r.session.closed == s.closed && r.session.terminal == s.terminal
            && (s.budget > 0 ==> && r.error.None? && r.session.rejected == s.rejected + {Le16At(p, 1)}
                                 && r.session.sent == s.sent + [CommandSent(DISCONNECT, p[1..3] + [0x05])])
            && (s.budget == 0 ==> r.error.Some? && r.session.rejected == s.rejected && r.session.sent == s.sent)
  {
    hide Drain, Dispatch;
  }

  lemma ConnectedOutput(h: Host, handle: u16, peer: Address)
    requires ValidHost(h) && AllPlain(h.output)
    ensures var r := HandleEvent(h, ConnectionComplete(0, handle, peer));
            r.error.None? ==>
              && r.host.output == h.output
                 + [EventOut(SessionEvent.Connected(peer, handle)), CommandOut(0x0411, Le16(handle))]
              && PlainBut(r.host.output, |h.output|)
  {
  }

  lemma ExpectedStep(s: Session, p: seq<byte>)
    requires Inv(s) && Active(s) && |p| == 11 && p[0] == 0 && !Unexpected(s, p)
    ensures Good(s, Recorded(OnEvent(s, CONNECTION_COMPLETE, p)).session, Controller(CONNECTION_COMPLETE, p))
  {
    hide Accepts, ValidHost, Drain, Dispatch, HandleEvent;
    var move, r := Controller(CONNECTION_COMPLETE, p), OnEvent(s, CONNECTION_COMPLETE, p);
    var handle, peer := Le16At(p, 1), AddressAt(p, 3);
    var e := ConnectionComplete(0, handle, peer);
    assert Expected(s.window) == Some(peer);
    ConnectedOutput(s.host, handle, peer);
    DispatchDecides(s, e, |s.host.output|);
    RecordedIsGood(s, r, move);
  }

  lemma FailedStep(s: Session, p: seq<byte>)
    requires Inv(s) && Active(s) && |p| == 11 && p[0] != 0
    ensures Good(s, Recorded(OnEvent(s, CONNECTION_COMPLETE, p)).session, Controller(CONNECTION_COMPLETE, p))
  {
    hide Accepts, ValidHost, Dispatch;
    var move, r := Controller(CONNECTION_COMPLETE, p), OnEvent(s, CONNECTION_COMPLETE, p);
    var e := EndWindow(s);
    EndWindowKeeps(s);
    EndWindowAccepts(s);
    hide EndWindow;
    if e.error.None? {
      OtherEventsArePlain(CONNECTION_COMPLETE, p);
      var t := Enqueue(e.session.(activeReconnect := false), DisconnectedFrom(p[0]));
      DispatchPlain(t, DecodeEvent(CONNECTION_COMPLETE, p).value);
      ExtendsTransitive(s.events, t.events, r.session.events);
    }
    RecordedIsGood(s, r, move);
  }

  lemma EndWindowAccepts(s: Session)
    ensures Accepts(EndWindow(s).session.sent) == Accepts(s.sent)
    ensures EndWindow(s).error.None? ==> EndWindow(s).session.window == Idle
  {
    SendAllAccepts(s, Quieten(s));
    hide Accepts, Quieten;
  }

  /** The disconnection of a rejected connection stops at the session; any other reaches the host. */
  lemma SwallowedExactlyWhenRejected(s: Session, p: seq<byte>)
    requires ValidHost(s.host) && |p| == 4 && p[0] == 0
    ensures var r, handle := OnEvent(s, DISCONNECTION_COMPLETE, p), Le16At(p, 1);
            && (handle in s.rejected ==> r == Reply(s.(rejected := s.rejected - {handle}), None))
            && (handle !in s.rejected ==> r == Dispatch(s, [DisconnectionComplete(handle, p[3])]))
  {
    hide Drain, Dispatch;
  }

  lemma {:induction false} WithoutAclPlain(output: seq<HostOutput>, handle: u16)
    requires AllPlain(output)
    ensures AllPlain(WithoutAcl(output, handle))
  {
    if output != [] { WithoutAclPlain(output[1..], handle); }
  }

  lemma DisconnectedOutput(h: Host, handle: u16, reason: byte)
    requires ValidHost(h) && AllPlain(h.output)
    ensures var r, n := HandleEvent(h, DisconnectionComplete(handle, reason)), |WithoutAcl(h.output, handle)|;
            r.error.None? ==>
              && h.connection.Some? && PlainBut(r.host.output, n)
              && r.host.output == WithoutAcl(h.output, handle)
                 + [EventOut(Disconnected(h.connection.value.peer, reason))]
  {
    WithoutAclPlain(h.output, handle);
  }

  lemma DisconnectionStep(s: Session, p: seq<byte>)
    requires Inv(s) && Active(s) && |p| == 4 && p[0] == 0
    ensures Good(s, Recorded(OnEvent(s, DISCONNECTION_COMPLETE, p)).session, Controller(DISCONNECTION_COMPLETE, p))
  {
    SwallowedExactlyWhenRejected(s, p);
    hide Accepts, ValidHost, OnEvent, Dispatch, Decides, Settles;
    var move, r, handle := Controller(DISCONNECTION_COMPLETE, p), OnEvent(s, DISCONNECTION_COMPLETE, p), Le16At(p, 1);
    if handle in s.rejected {
      ForgottenSettles(s, handle, move);
    } else {
      DisconnectedSettles(s, handle, p[3], move);
    }
    RecordedIsGood(s, r, move);
  }

  lemma ForgottenSettles(s: Session, handle: u16, move: Move)
    requires Inv(s) && Active(s) && DisconnectionOf(move, handle)
    ensures Settles(s, Reply(s.(rejected := s.rejected - {handle}), None), move)
  {
    hide Accepts, ValidHost, AllPlain;
  }

  lemma DisconnectedSettles(s: Session, handle: u16, reason: byte, move: Move)
    requires Inv(s) && Active(s)
    ensures Settles(s, Dispatch(s, [DisconnectionComplete(handle, reason)]), move)
  {
    hide Accepts, AclFlow.Valid, Hci.ValidAssembler, Channels.EnginesValid, Dispatch, HandleEvent;
    DisconnectedOutput(s.host, handle, reason);
    DispatchDecides(s, DisconnectionComplete(handle, reason), |WithoutAcl(s.host.output, handle)|);
  }

  lemma PlainStep(s: Session, code: byte, p: seq<byte>)
    requires Inv(s) && Active(s) && code != CONNECTION_REQUEST && code != CONNECTION_COMPLETE
    requires code == DISCONNECTION_COMPLETE ==> |p| != 4 || p[0] != 0
    ensures Good(s, Recorded(OnEvent(s, code, p)).session, Controller(code, p))
  {
    hide Accepts, ValidHost, Dispatch;
    var move, r := Controller(code, p), OnEvent(s, code, p);
    var events := DecodeEvent(code, p);
    if events.Some? {
      OtherEventsArePlain(code, p);
      hide DecodeEvent;
      DispatchPlain(s, events.value);
    }
    CalmSettles(s, r, move);
    RecordedIsGood(s, r, move);
  }

  // What comes of a step that only handles plain output, opens channels and serves them.
  predicate Ordinary(s: Session, r: Reply) {
    Calm(s, r.session) && ValidHost(r.session.host) && AllPlain(r.session.host.output)
  }

  lemma OrdinaryThen(s: Session, a: Reply, b: Reply)
    requires Ordinary(s, a) && Ordinary(a.session, b)
    ensures Ordinary(s, b)
  {
    hide Accepts, ValidHost, AllPlain;
    CalmTransitive(s, a.session, b.session);
  }

  lemma DrainIsOrdinary(s: Session)
    requires ValidHost(s.host) && AllPlain(s.host.output)
    ensures Ordinary(s, Drain(s))
  {
    hide Accepts, ValidHost, AllPlain, Drain, Calm;
    DrainPlain(s);
    DrainKeeps(s);
  }

  lemma WorkIsOrdinary(s: Session, r: Reply)
    requires AllPlain(s.host.output) && Works(s, r.session)
    ensures Ordinary(s, r)
  {
    hide Accepts, ValidHost, Calm;
    WorksCalm(s, r.session);
    PlainPrefix(r.session.host.output, |s.host.output|);
  }

  lemma AfterAclIsOrdinary(s: Session)
    requires ValidHost(s.host) && AllPlain(s.host.output)
    ensures Ordinary(s, AfterAcl(s))
  {
    hide ValidHost, AllPlain, Drain, Refresh, ServeAll, Calm, Works;
    var a := Drain(s);
    DrainIsOrdinary(s);
    if a.error.None? {
      var b := Refresh(a.session);
      RefreshAllWorks(a.session);
      WorkIsOrdinary(a.session, b);
      OrdinaryThen(s, a, b);
      if b.error.None? {
        var c := ServeAll(b.session);
        ServeAllWorks(b.session);
        WorkIsOrdinary(b.session, c);
        OrdinaryThen(s, b, c);
        if c.error.None? {
          DrainIsOrdinary(c.session);
          OrdinaryThen(s, c, Drain(c.session));
        }
      }
    }
  }

  lemma AclStep(s: Session, packet: Hci.AclPacket)
    requires Inv(s) && Active(s)
    ensures Good(s, Recorded(OnAcl(s, packet)).session, Data(packet))
  {
    hide Accepts, AclFlow.Valid, Hci.ValidAssembler, Channels.EnginesValid, AfterAcl, ProcessAcl, AllPlain;
    var h := ProcessAcl(s.host, packet);
    ProcessAclKeeps(s.host, packet);
    PlainPrefix(h.host.output, |s.host.output|);
    if h.error.None? { AfterAclIsOrdinary(s.(host := h.host)); }
    CalmSettles(s, OnAcl(s, packet), Data(packet));
    RecordedIsGood(s, OnAcl(s, packet), Data(packet));
  }

  /** A report that could not be sent whole leaves the session active, with plain output still to send. */
  lemma ReportIsGood(s: Session, encoded: Option<seq<byte>>)
    requires Inv(s) && Active(s)
    ensures Good(s, SendReport(s, encoded).session, SendInterrupt(encoded))
  {
    hide Accepts, ValidHost, Drain, SendChannelSdu, AllPlain;
    var known, r := s.protocols.interrupt, SendReport(s, encoded);
    if known.Some? && encoded.Some? {
      var h := SendChannelSdu(s.host, known.value.cid, encoded.value);
      SendGrows(s.host, known.value.cid, encoded.value);
      GrowsOutput(s.host, h.host);
      PlainPrefix(h.host.output, |s.host.output|);
      if h.error.None? { DrainIsOrdinary(s.(host := h.host)); }
    }
    CalmSettles(s, r, SendInterrupt(encoded));
    PlainIsGood(s, r.session, SendInterrupt(encoded));
  }

  lemma PlainIsGood(s: Session, t: Session, move: Move)
    requires Settles(s, Reply(t, None), move)
    ensures Good(s, t, move)
  {
    hide Accepts, ValidHost, Expected, AllPlain;
  }

  lemma PairIsGood(s: Session)
    requires Inv(s) && Active(s)
    ensures Good(s, StartPairing(s).session, Pair)
  {
    hide Accepts, ValidHost, SendAll;
    var pairing := [Scan(false, true), Inquiry(s), Scan(true, true)];
    SendAllKeeps(s, pairing);
    SendAllAccepts(s, pairing);
  }

  lemma ReconnectIsGood(s: Session)
    requires Inv(s) && Active(s)
    ensures Good(s, StartReconnect(s).session, Reconnect)
  {
    hide Accepts, ValidHost, SendAll, SoleBond;
    var bond := SoleBond(s.host.bonds);
    if bond.Some? {
      var create := [Scan(false, true), Inquiry(s), Scan(false, true),
                     CommandSent(0x0405, bond.value + [0, 0, 0, 0, 0, 0, 1])];
      SendAllKeeps(s, create);
      SendAllAccepts(s, create);
    }
  }

  lemma HangupIsGood(s: Session)
    requires Inv(s) && Active(s)
    ensures Good(s, Hangup(s).session, HangUp)
  {
    hide Accepts, ValidHost, EndWindow;
    var idle := s.(protocols := NO_PROTOCOLS, activeReconnect := false, connection := None);
    if s.connection.None? {
      EndWindowKeeps(idle);
      EndWindowAccepts(idle);
    } else {
      var packet := CommandSent(DISCONNECT, Le16(s.connection.value.1) + [0x13]);
      AcceptsOne(s.sent, packet);
      assert Accepts(s.sent) + [] == Accepts(s.sent);
      EndWindowKeeps(Send(idle, packet).session);
      EndWindowAccepts(Send(idle, packet).session);
    }
  }

  /** Every call, every packet, every adapter failure. */
  lemma PerformIsGood(s: Session, move: Move, o: Outside)
    requires Inv(s)
    ensures Good(s, Perform(s, move, o).session, move)
  {
    hide Accepts, ValidHost, OnEvent, OnAcl, StartPairing, StartReconnect, Hangup, SendReport, WindowStep, Announces,
         Links, AcceptsOnly;
    var t := s.(budget := o.budget, answers := o.answers);
    if Active(s) && !move.Shut? {
      match move
      case Pair => PairIsGood(t);
      case Reconnect => ReconnectIsGood(t);
      case HangUp => HangupIsGood(t);
      case SendInterrupt(encoded) => ReportIsGood(t, encoded);
      case ReceptionFails(kind) =>
      case TakeEvents =>
      case Controller(code, p) => EventStep(t, code, p);
      case Data(packet) => AclStep(t, packet);
      case Shut =>
    }
    SameIsGood(s, move, o);
  }

  lemma EventStep(s: Session, code: byte, p: seq<byte>)
    requires Inv(s) && Active(s)
    ensures Good(s, Recorded(OnEvent(s, code, p)).session, Controller(code, p))
  {
    if code == CONNECTION_REQUEST {
      RequestStep(s, p);
    } else if code == CONNECTION_COMPLETE {
      if |p| != 11 {
        BadLengthStep(s, code, p);
      } else if p[0] != 0 {
        FailedStep(s, p);
      } else if Unexpected(s, p) {
        UnexpectedIsGood(s, p);
      } else {
        ExpectedStep(s, p);
      }
    } else if code == DISCONNECTION_COMPLETE && |p| == 4 && p[0] == 0 {
      DisconnectionStep(s, p);
    } else {
      PlainStep(s, code, p);
    }
  }

  lemma BadLengthStep(s: Session, code: byte, p: seq<byte>)
    requires Inv(s) && Active(s) && DecodeEvent(code, p).None?
    ensures Good(s, Recorded(OnEvent(s, code, p)).session, Controller(code, p))
  {
    hide Accepts, ValidHost, Dispatch;
  }

  lemma UnexpectedIsGood(s: Session, p: seq<byte>)
    requires Inv(s) && Active(s) && |p| == 11 && Unexpected(s, p)
    ensures Good(s, Recorded(OnEvent(s, CONNECTION_COMPLETE, p)).session, Controller(CONNECTION_COMPLETE, p))
  {
    UnexpectedStep(s, p);
    AcceptsOne(s.sent, CommandSent(DISCONNECT, p[1..3] + [0x05]));
    hide Accepts, ValidHost, OnEvent;
    assert Accepts(s.sent) + [] == Accepts(s.sent);
  }

  lemma SameIsGood(s: Session, move: Move, o: Outside)
    requires Inv(s)
    ensures Good(s, s, move) && Good(s, s.(events := []), move) && (move.Shut? ==> Good(s, Close(s), move))
    ensures forall t: Session :: Good(s.(budget := o.budget, answers := o.answers), t, move) ==> Good(s, t, move)
    ensures forall e: Option<ErrorKind> :: e.Some? ==> Good(s, s.(terminal := e), move)
  {
    hide Accepts, ValidHost;
  }

  // ---------------------------------------------------------------------------
  // Whole runs
  // ---------------------------------------------------------------------------

  // A session that has just been opened.
  function Start(bonds: map<Address, Bond>, servers: map<u32, Channels.ChannelSpec>, payloadSize: nat, total: u16,
                 inquiry: seq<byte>)
    : Session
  {
    Session(Fresh(bonds, payloadSize, total).(servers := servers),
            Idle, None, {}, NO_PROTOCOLS, false, None, false, [], inquiry, 0, [], [])
  }

  // What the controller, the adapter, the services and the application did, and what that made of the session.
  ghost predicate Run(states: seq<Session>, moves: seq<Move>, outside: seq<Outside>) {
    && |states| == |moves| + 1 && |outside| == |moves|
    && (exists bonds, servers, size: nat, total: u16, inquiry ::
        states[0] == Start(bonds, servers, size, total, inquiry))
    && forall i :: 0 <= i < |moves| ==>
         ValidHost(states[i].host) && states[i + 1] == Perform(states[i], moves[i], outside[i]).session
  }

  // Every step of the run is good.
  ghost predicate GoodSteps(states: seq<Session>, moves: seq<Move>) {
    && |states| == |moves| + 1 && states[0].window == Idle && states[0].events == [] && states[0].connection.None?
    && forall i :: 0 <= i < |moves| ==> Good(states[i], states[i + 1], moves[i])
  }

  lemma StartKeeps(bonds: map<Address, Bond>, servers: map<u32, Channels.ChannelSpec>, payloadSize: nat, total: u16,
                   inquiry: seq<byte>)
    ensures Inv(Start(bonds, servers, payloadSize, total, inquiry))
  {
    AclFlow.NothingInFlight(0);
  }

  lemma GoodKeepsInv(s: Session, t: Session, move: Move)
    requires Good(s, t, move)
    ensures Inv(t)
  {
    hide Inv;
  }

  lemma {:induction false} RunKeeps(states: seq<Session>, moves: seq<Move>, outside: seq<Outside>, n: nat)
    requires Run(states, moves, outside) && n < |states|
    ensures Inv(states[n]) && (n > 0 ==> Good(states[n - 1], states[n], moves[n - 1]))
  {
    hide Perform, Good, Inv, ValidHost;
    if n == 0 {
      var bonds, servers, size: nat, total: u16, inquiry :| states[0] == Start(bonds, servers, size, total, inquiry);
      StartKeeps(bonds, servers, size, total, inquiry);
    } else {
      RunKeeps(states, moves, outside, n - 1);
      PerformIsGood(states[n - 1], moves[n - 1], outside[n - 1]);
      assert states[n - 1 + 1] == Perform(states[n - 1], moves[n - 1], outside[n - 1]).session;
      GoodKeepsInv(states[n - 1], states[n], moves[n - 1]);
    }
  }

  lemma RunStarts(states: seq<Session>, moves: seq<Move>, outside: seq<Outside>)
    requires Run(states, moves, outside)
    ensures |states| == |moves| + 1 && states[0].window == Idle && states[0].events == [] && states[0].connection.None?
  {
    hide Perform, ValidHost;
  }

  lemma RunIsGood(states: seq<Session>, moves: seq<Move>, outside: seq<Outside>)
    requires Run(states, moves, outside)
    ensures GoodSteps(states, moves)
  {
    hide Run, Good;
    RunStarts(states, moves, outside);
    forall i | 0 <= i < |moves| ensures Good(states[i], states[i + 1], moves[i]) {
      RunKeeps(states, moves, outside, i + 1);
    }
  }

  // The move that made a window expect this peer: reconnecting to the only bond, or the first request while pairing.
  predicate Opens(s: Session, move: Move, peer: Address) {
    || (s.window == Idle && move.Reconnect? && SoleBond(s.host.bonds) == Some(peer))
    || (s.window == Pairing(None) && RequestFrom(move, peer))
  }

  lemma ExpectationStep(s: Session, t: Session, move: Move, peer: Address)
    requires WindowStep(s, t, move) && Expected(t.window) == Some(peer)
    ensures t.window == s.window || Opens(s, move, peer)
    ensures Expected(s.window).Some? ==> t.window == s.window
  {
    hide SoleBond;
  }

  lemma GoodStep(states: seq<Session>, moves: seq<Move>, i: nat)
    requires GoodSteps(states, moves) && i < |moves|
    ensures var s, t, move := states[i], states[i + 1], moves[i];
            WindowStep(s, t, move) && Announces(s, t) && Links(s, t) && AcceptsOnly(s, t, move) && Remembers(s, t, move)
                && Inv(t)
  {
    hide WindowStep, Announces, Links, AcceptsOnly, Remembers, Inv;
    assert Good(states[i], states[i + 1], moves[i]);
  }

  // At `n` the window expected this peer, as it had ever since the move `i` that named the peer.
  predicate ExpectedSince(states: seq<Session>, moves: seq<Move>, i: nat, n: nat, peer: Address)
    requires n < |states| == |moves| + 1
  {
    && i < n && Opens(states[i], moves[i], peer) && Expected(states[n].window) == Some(peer)
    && forall k :: i < k <= n ==> states[k].window == states[n].window
  }

  /** A window that expects a peer has expected it ever since the move that named it. */
  lemma {:induction false} ExpectationHasOrigin(states: seq<Session>, moves: seq<Move>, n: nat, peer: Address)
    returns (i: nat)
    requires GoodSteps(states, moves) && n < |states| && Expected(states[n].window) == Some(peer)
    ensures ExpectedSince(states, moves, i, n, peer)
    decreases n
  {
    hide Good, Opens, WindowStep;
    assert n > 0;
    GoodStep(states, moves, n - 1);
    ExpectationStep(states[n - 1], states[n], moves[n - 1], peer);
    if states[n - 1].window == states[n].window {
      i := ExpectationHasOrigin(states, moves, n - 1, peer);
    } else {
      i := n - 1;
    }
  }

  // The step at `j` put this connection into the event queue, as its event `k`.
  predicate AnnouncedBy(states: seq<Session>, j: nat, k: nat, peer: Address)
    requires j + 1 < |states|
  {
    |states[j].events| <= k < |states[j + 1].events| && states[j + 1].events[k] == ConnectedTo(peer)
  }

  // The step at `j` made the connection that the session still has at `n`.
  predicate LinkedBy(states: seq<Session>, j: nat, n: nat)
    requires j < n < |states|
  {
    states[j].connection != states[n].connection && forall i :: j < i <= n ==>
        states[i].connection == states[n].connection
  }

  lemma {:induction false} AnnouncedAt(states: seq<Session>, moves: seq<Move>, n: nat, peer: Address)
    returns (j: nat, k: nat)
    requires GoodSteps(states, moves) && n < |states| && ConnectedTo(peer) in states[n].events
    ensures j < n && AnnouncedBy(states, j, k, peer) && Expected(states[j].window) == Some(peer)
    decreases n
  {
    hide Good, WindowStep, AcceptsOnly, Remembers, Links;
    assert n > 0;
    GoodStep(states, moves, n - 1);
    var s, t := states[n - 1], states[n];
    k :| 0 <= k < |t.events| && t.events[k] == ConnectedTo(peer);
    if k < |s.events| {
      assert s.events[k] == t.events[..|s.events|][k];
      j, k := AnnouncedAt(states, moves, n - 1, peer);
    } else {
      j := n - 1;
      assert states[j + 1] == t;
    }
  }

  lemma {:induction false} LinkedAt(states: seq<Session>, moves: seq<Move>, n: nat, peer: Address) returns (j: nat)
    requires GoodSteps(states, moves) && n < |states| && states[n].connection.Some?
             && states[n].connection.value.0 == peer
    ensures j < n && LinkedBy(states, j, n) && Expected(states[j].window) == Some(peer)
    decreases n
  {
    hide Good, WindowStep, AcceptsOnly, Remembers, Announces;
    assert n > 0;
    GoodStep(states, moves, n - 1);
    if states[n - 1].connection == states[n].connection {
      j := LinkedAt(states, moves, n - 1, peer);
    } else {
      j := n - 1;
    }
  }

  /** No step announces more than one connection. */
  lemma OneAnnouncementPerStep(states: seq<Session>, moves: seq<Move>, outside: seq<Outside>, n: nat, i: nat, j: nat)
    requires Run(states, moves, outside) && n + 1 < |states|
    requires |states[n].events| <= i < |states[n + 1].events| && |states[n].events| <= j < |states[n + 1].events|
    requires states[n + 1].events[i].ConnectedTo? && states[n + 1].events[j].ConnectedTo?
    ensures i == j
  {
    hide Perform, Good, WindowStep, AcceptsOnly, Remembers, Links;
    RunIsGood(states, moves, outside);
    GoodStep(states, moves, n);
  }

  /**
    * Every connection the application is told of was announced in a step whose window expected this peer, and had
    * expected it ever since the bond or the first request named it.
    */
  lemma AnnouncedIsExpected(states: seq<Session>, moves: seq<Move>, outside: seq<Outside>, n: nat, peer: Address)
    returns (i: nat, j: nat, k: nat)
    requires Run(states, moves, outside) && n < |states| && ConnectedTo(peer) in states[n].events
    ensures j < n && AnnouncedBy(states, j, k, peer) && ExpectedSince(states, moves, i, j, peer)
  {
    hide Perform, Good, ExpectedSince, AnnouncedBy;
    RunIsGood(states, moves, outside);
    j, k := AnnouncedAt(states, moves, n, peer);
    i := ExpectationHasOrigin(states, moves, j, peer);
  }

  /** Every connection the session has was made in such a step, and has been the session's ever since. */
  lemma ConnectedIsExpected(states: seq<Session>, moves: seq<Move>, outside: seq<Outside>, n: nat, peer: Address)
    returns (i: nat, j: nat)
    requires Run(states, moves, outside) && n < |states|
    requires states[n].connection.Some? && states[n].connection.value.0 == peer
    ensures j < n && LinkedBy(states, j, n) && ExpectedSince(states, moves, i, j, peer)
  {
    hide Perform, Good, ExpectedSince, LinkedBy;
    RunIsGood(states, moves, outside);
    j := LinkedAt(states, moves, n, peer);
    i := ExpectationHasOrigin(states, moves, j, peer);
  }

  // The step from `s` to `t` accepted a request from this peer.
  predicate Accepted(s: Session, t: Session, peer: Address) { Accepts(t.sent) == Accepts(s.sent) + [peer + [1]] }

  lemma AcceptedIsExpected(s: Session, t: Session, move: Move, peer: Address)
    requires AcceptsOnly(s, t, move) && Accepted(s, t, peer)
    ensures Expected(t.window) == Some(peer)
  {
    hide Accepts;
    var all, n := Accepts(t.sent), |Accepts(s.sent)|;
    assert all[n] == peer + [1];
    var other: Address :| all == Accepts(s.sent) + [other + [1]] && Expected(t.window) == Some(other);
    assert all[n] == other + [1];
    assert (peer + [1])[..6] == peer && (other + [1])[..6] == other;
  }

  /** Within one window no second peer is accepted. */
  lemma OnePeerPerWindow(states: seq<Session>, moves: seq<Move>, outside: seq<Outside>, i: nat, j: nat, p: Address,
                         q: Address)
    requires Run(states, moves, outside) && i <= j && j + 1 < |states|
    requires Accepted(states[i], states[i + 1], p) && Accepted(states[j], states[j + 1], q)
    requires forall k :: i < k <= j + 1 ==> Expected(states[k].window).Some?
    ensures p == q
  {
    hide Perform, Good, WindowStep, AcceptsOnly, Remembers, Announces, Links, Accepted;
    RunIsGood(states, moves, outside);
    GoodStep(states, moves, i);
    GoodStep(states, moves, j);
    AcceptedIsExpected(states[i], states[i + 1], moves[i], p);
    AcceptedIsExpected(states[j], states[j + 1], moves[j], q);
    WindowStays(states, moves, i + 1, j + 1);
  }

  lemma {:induction false} WindowStays(states: seq<Session>, moves: seq<Move>, i: nat, j: nat)
    requires GoodSteps(states, moves) && i <= j < |states|
    requires forall k :: i <= k <= j ==> Expected(states[k].window).Some?
    ensures states[j].window == states[i].window
    decreases j
  {
    hide Good, WindowStep;
    if i < j {
      WindowStays(states, moves, i, j - 1);
      GoodStep(states, moves, j - 1);
      ExpectationStep(states[j - 1], states[j], moves[j - 1], Expected(states[j].window).value);
    }
  }

  /** A rejected connection is remembered until it ends. */
  lemma {:induction false} RejectedUntilGone(states: seq<Session>, moves: seq<Move>, i: nat, j: nat, handle: u16)
    requires GoodSteps(states, moves) && i <= j < |states| && handle in states[i].rejected
    requires forall k :: i <= k < j ==> !moves[k].Shut? && !DisconnectionOf(moves[k], handle)
    ensures handle in states[j].rejected
    decreases j
  {
    hide Good, DisconnectionOf;
    if i < j {
      RejectedUntilGone(states, moves, i, j - 1, handle);
      GoodStep(states, moves, j - 1);
      assert !moves[j - 1].Shut? && !DisconnectionOf(moves[j - 1], handle);
    }
  }

  // A session that ended stays ended.
  lemma {:induction false} ActiveBefore(states: seq<Session>, moves: seq<Move>, outside: seq<Outside>, i: nat, j: nat)
    requires Run(states, moves, outside) && i <= j < |states| && Active(states[j])
    ensures Active(states[i])
    decreases j
  {
    hide ValidHost, OnEvent, OnAcl, StartPairing, StartReconnect, Hangup, SendReport, Recorded;
    if i < j {
      assert states[j - 1 + 1] == Perform(states[j - 1], moves[j - 1], outside[j - 1]).session;
      ActiveBefore(states, moves, outside, i, j - 1);
    }
  }

  // A packet about a handle: data, or the end of its authentication or of its encryption set-up.
  predicate Concerns(move: Move, handle: u16) {
    || (move.Data? && move.packet.handle == handle)
    || (move.Controller? && move.code == 0x06 && |move.parameters| == 3 && move.parameters[0] == 0
        && Le16At(move.parameters, 1) == handle)
    || (move.Controller? && move.code == 0x08 && |move.parameters| == 4 && move.parameters[0] == 0
        && move.parameters[3] != 0
        && Le16At(move.parameters, 1) == handle)
  }

  predicate HostHas(h: Host, handle: u16) { h.connection.Some? && h.connection.value.handle == handle }

  /** A packet about a handle that is not the host's connection changes nothing but to end the session. */
  lemma StrayPacketEndsSession(s: Session, move: Move, o: Outside, handle: u16)
    requires ValidHost(s.host) && Active(s) && Concerns(move, handle) && !HostHas(s.host, handle)
    ensures var t := Perform(s, move, o).session;
            t == s.(budget := o.budget, answers := o.answers, terminal := Some(ProtocolViolation))
  {
    hide AfterAcl, Drain, AclFlow.Valid, Hci.ValidAssembler, Channels.EnginesValid;
    var t := s.(budget := o.budget, answers := o.answers);
    if move.Data? {
      assert CheckHandle(s.host, handle).Some?;
    } else {
      var e := if move.code == 0x06 then AuthenticationComplete(0, handle) else EncryptionChange(0, handle, true);
      DispatchOne(t, e);
      assert DecodeEvent(move.code, move.parameters) == Some([e]);
    }
  }

  /**
    * A successful connection that no window expects is disconnected at once. When its disconnection arrives, however
    * much later, it reaches neither the host nor the application; and until then no packet about its handle does,
    * unless the host's own connection has the same handle.
    */
  lemma UnexpectedConnectionComesToNothing(states: seq<Session>, moves: seq<Move>, outside: seq<Outside>, i: nat,
                                           j: nat)
    requires Run(states, moves, outside) && i < j < |moves| && Active(states[j]) && outside[i].budget > 0
    requires moves[i].Controller? && moves[i].code == CONNECTION_COMPLETE && |moves[i].parameters| == 11
    requires Unexpected(states[i], moves[i].parameters)
    requires var handle := Le16At(moves[i].parameters, 1);
             && DisconnectionOf(moves[j], handle)
             && forall k :: i < k < j ==> !moves[k].Shut? && !DisconnectionOf(moves[k], handle)
    ensures states[i + 1].sent == states[i].sent + [CommandSent(DISCONNECT, moves[i].parameters[1..3] + [0x05])]
    ensures states[i + 1].host == states[i].host && states[i + 1].events == states[i].events
            && states[i + 1].window == states[i].window
    ensures states[j + 1].host == states[j].host && states[j + 1].events == states[j].events
            && states[j + 1].window == states[j].window
    ensures forall k :: i < k < j && Concerns(moves[k], Le16At(moves[i].parameters, 1)) ==>
              HostHas(states[k].host, Le16At(moves[i].parameters, 1))
  {
    hide Perform, Good, DisconnectionOf, Unexpected, Concerns, HostHas, Active;
    var handle := Le16At(moves[i].parameters, 1);
    RunIsGood(states, moves, outside);
    ActiveBefore(states, moves, outside, i, j);
    RejectedStep(states[i], moves[i], outside[i]);
    RejectedUntilGone(states, moves, i + 1, j, handle);
    SwallowedStep(states[j], moves[j], outside[j], handle);
    forall k | i < k < j && Concerns(moves[k], handle) ensures HostHas(states[k].host, handle) {
      ActiveBefore(states, moves, outside, k, j);
      ActiveBefore(states, moves, outside, k + 1, j);
      if !HostHas(states[k].host, handle) {
        StrayPacketEndsSession(states[k], moves[k], outside[k], handle);
        EndedIsNotActive(states[k], outside[k]);
      }
    }
  }

  lemma EndedIsNotActive(s: Session, o: Outside)
    ensures !Active(s.(budget := o.budget, answers := o.answers, terminal := Some(ProtocolViolation)))
  {
  }

  lemma RejectedStep(s: Session, move: Move, o: Outside)
    requires ValidHost(s.host) && Active(s) && o.budget > 0
    requires move.Controller? && move.code == CONNECTION_COMPLETE && |move.parameters| == 11
             && Unexpected(s, move.parameters)
    ensures var t := Perform(s, move, o).session;
            && t.sent == s.sent + [CommandSent(DISCONNECT, move.parameters[1..3] + [0x05])]
            && Le16At(move.parameters, 1) in t.rejected
            && t.host == s.host && t.events == s.events && t.window == s.window
  {
    hide OnEvent, ValidHost;
    var t := s.(budget := o.budget, answers := o.answers);
    assert Unexpected(t, move.parameters);
    UnexpectedStep(t, move.parameters);
  }

  lemma SwallowedStep(s: Session, move: Move, o: Outside, handle: u16)
    requires ValidHost(s.host) && Active(s) && DisconnectionOf(move, handle) && handle in s.rejected
    ensures var t := Perform(s, move, o).session;
            t.host == s.host && t.window == s.window && t.events == s.events
  {
    hide OnEvent, ValidHost;
    SwallowedExactlyWhenRejected(s.(budget := o.budget, answers := o.answers), move.parameters);
  }
}
