/**
  * What two managers settle between them: which proposals are accepted, what the
  * accepted one makes of both ends, and how a channel is closed at both ends.
  */
module ChannelAgreement {
  import opened Bytes
  import opened Signaling
  import opened Channels
  import Ertm
  import ErtmLink

  // The engine parameters in a peer's proposal.
  function Offered(s: ChannelSpec): PeerErtm
    requires s.Enhanced?
  {
    PeerErtm(MODE_ENHANCED, s.txWindowSize, s.maxRetransmissions, s.mps)
  }

  predicate Agree(a: ChannelSpec, b: ChannelSpec) { a.Enhanced? == b.Enhanced? && (a.Enhanced? ==> a.fcs == b.fcs) }

  lemma OfferReads(s: ChannelSpec)
    requires s.Enhanced?
    ensures DecodeErtmOption(EnhancedOption(s).value) == Some(Offered(s))
  {
    var v := EnhancedOption(s).value;
    assert |v| == 9 && v[0] == MODE_ENHANCED && v[1] == s.txWindowSize && v[2] == s.maxRetransmissions;
    assert v[7] == s.mps % 0x100 && v[8] == s.mps / 0x100;
  }

  lemma ConsiderMtu(enhanced: bool, n: Negotiation, mtu: u16)
    ensures mtu >= MIN_MTU ==>
            Consider(enhanced, n, MtuOption(mtu)) == n.(peerMtu := mtu, response := n.response + [MtuOption(mtu)])
  {
    assert Le16At(MtuOption(mtu).value, 0) == mtu;
  }

  lemma ConsiderOffer(enhanced: bool, n: Negotiation, s: ChannelSpec)
    requires s.Enhanced? && ValidSpec(s)
    ensures var o := EnhancedOption(s);
            Consider(enhanced, n, o)
            == if enhanced then n.(ertm := Some(Offered(s)), response := n.response + [o])
                else Refuse(n, UNACCEPTABLE, o)
  {
    OfferReads(s);
    hide DecodeErtmOption;
  }

  lemma ConsiderFcs(enhanced: bool, n: Negotiation)
    ensures Consider(enhanced, n, FcsOption(true)) == n.(fcs := Some(true), response := n.response + [FcsOption(true)])
  {
  }

  // What a whole proposal comes to: as it stands, or stopped at the offer of a mode the channel does not have.
  function Considered(enhanced: bool, mtu: u16, p: ChannelSpec): Negotiation {
    var first := Negotiation(SUCCESS, [MtuOption(p.mtu)], p.mtu, None, None);
    if p.Basic? then first
    else if !enhanced then Refuse(first, UNACCEPTABLE, EnhancedOption(p))
    else Negotiation(SUCCESS, Proposal(p), p.mtu, Some(Offered(p)), if p.fcs then Some(true) else None)
  }

  lemma NegotiateStep(enhanced: bool, n: Negotiation, o: ConfigurationOption, rest: seq<ConfigurationOption>)
    ensures var next := Consider(enhanced, n, o);
            Negotiate(enhanced, n, [o] + rest) ==
                if next.result != SUCCESS then next else Negotiate(enhanced, next, rest)
  {
    assert ([o] + rest)[0] == o && ([o] + rest)[1..] == rest;
  }

  lemma ProposalConsidered(enhanced: bool, mtu: u16, p: ChannelSpec)
    requires ValidSpec(p)
    ensures Negotiate(enhanced, Negotiation(SUCCESS, [], mtu, None, None), Proposal(p)) == Considered(enhanced, mtu, p)
  {
    hide Consider, EnhancedOption, MtuOption, FcsOption, Offered, Negotiate;
    var start := Negotiation(SUCCESS, [], mtu, None, None);
    var offer: seq<ConfigurationOption> :=
      if p.Enhanced? then [EnhancedOption(p)] + (if p.fcs then [FcsOption(true)] else []) else [];
    ConsiderMtu(enhanced, start, p.mtu);
    NegotiateStep(enhanced, start, MtuOption(p.mtu), offer);
    var first := Consider(enhanced, start, MtuOption(p.mtu));
    assert [] + [MtuOption(p.mtu)] == [MtuOption(p.mtu)];
    if p.Enhanced? {
      var check: seq<ConfigurationOption> := if p.fcs then [FcsOption(true)] else [];
      ConsiderOffer(enhanced, first, p);
      NegotiateStep(enhanced, first, EnhancedOption(p), check);
      if enhanced {
        var second := Consider(enhanced, first, EnhancedOption(p));
        ConsiderFcs(enhanced, second);
        if p.fcs {
          NegotiateStep(enhanced, second, FcsOption(true), []);
          assert [FcsOption(true)] + [] == [FcsOption(true)];
          NegotiateEnds(enhanced, Consider(enhanced, second, FcsOption(true)));
          assert [MtuOption(p.mtu)] + [EnhancedOption(p)] + [FcsOption(true)] == Proposal(p);
        } else {
          NegotiateEnds(enhanced, second);
          assert [MtuOption(p.mtu)] + [EnhancedOption(p)] == Proposal(p);
        }
      }
    } else {
      NegotiateEnds(enhanced, first);
    }
  }

  lemma NegotiateEnds(enhanced: bool, n: Negotiation)
    ensures Negotiate(enhanced, n, []) == n
  {
  }

  /**
    * A channel accepts a peer's proposal exactly when both are in the same mode and, in the enhanced mode, both want
    * the check sequence or neither does. An accepted proposal is echoed, and sets the channel up with the peer's
    * parameters; a refused one closes the channel, except that an offer of the wrong mode leaves it waiting.
    */
  lemma AcceptedExactlyWhenAgreed(c: Channel, p: ChannelSpec)
    requires ValidSpec(c.spec) && ValidSpec(p)
    ensures var v := ConfigureVerdict(c, 0, Proposal(p));
            && !v.engineFailed
            && (v.result == SUCCESS <==> Agree(c.spec, p))
            && (v.result == SUCCESS ==>
                  && v.response == Proposal(p) && v.channel.peerConfigured && v.channel.peerMtu == p.mtu
                  && v.channel.state == c.state
                  && (p.Enhanced? ==>
                        && v.channel.ertm == Some(Ertm.Fresh(EngineConfigFor(c.spec, Offered(p))))
                        && v.channel.fcsEnabled == p.fcs && v.channel.peerMps == p.mps))
            && (v.result != SUCCESS ==> v.channel.state == if c.spec.Basic? then c.state else Closed)
  {
    hide Negotiate, Proposal, EnhancedOption, Conclude, Settle, Considered, Ertm.Fresh;
    ProposalConsidered(c.spec.Enhanced?, c.peerMtu, p);
    ConsideredFields(c.spec.Enhanced?, c.peerMtu, p);
    var n := Considered(c.spec.Enhanced?, c.peerMtu, p);
    if n.result == SUCCESS { ConcludeAgrees(c.(peerMtu := p.mtu), p, n); }
  }

  lemma ConsideredFields(enhanced: bool, mtu: u16, p: ChannelSpec)
    ensures var n := Considered(enhanced, mtu, p);
            && n.peerMtu == p.mtu
            && (n.result == SUCCESS <==> (p.Enhanced? ==> enhanced))
            && (n.result == SUCCESS ==>
                  n.response == Proposal(p)
                  && n.ertm == (if p.Enhanced? then Some(Offered(p)) else None)
                  && n.fcs == (if p.Enhanced? && p.fcs then Some(true) else None))
  {
    hide EnhancedOption;
    if p.Basic? { BasicProposal(p); }
  }

  lemma ConcludeAgrees(c: Channel, p: ChannelSpec, n: Negotiation)
    requires ValidSpec(c.spec) && ValidSpec(p) && (p.Enhanced? ==> c.spec.Enhanced?)
    requires n == Negotiation(SUCCESS, n.response, p.mtu, if p.Enhanced? then Some(Offered(p)) else None,
                              if p.Enhanced? && p.fcs then Some(true) else None)
    ensures var v := Settle(Conclude(c, n));
            && !Conclude(c, n).engineFailed && !v.engineFailed
            && (v.result == SUCCESS <==> Agree(c.spec, p))
            && (v.result == SUCCESS ==>
                  && v.response == n.response && v.channel.peerConfigured && v.channel.peerMtu == c.peerMtu
                  && v.channel.state == c.state
                  && (p.Enhanced? ==>
                        && v.channel.ertm == Some(Ertm.Fresh(EngineConfigFor(c.spec, Offered(p))))
                        && v.channel.fcsEnabled == p.fcs && v.channel.peerMps == p.mps))
            && (v.result != SUCCESS ==> v.channel.state == Closed && c.spec.Enhanced?)
  {
    hide EnhancedOption, FcsOption, Ertm.Fresh;
  }

  lemma BasicProposal(p: ChannelSpec)
    requires p.Basic?
    ensures Proposal(p) == [MtuOption(p.mtu)]
  {
  }

  /** Two ends that accept each other's proposals run engines that fit each other, as the link's safety asks. */
  lemma AgreedEnginesAreCompatible(c: Channel, d: Channel)
    requires ValidSpec(c.spec) && ValidSpec(d.spec) && c.spec.Enhanced? && Agree(c.spec, d.spec)
    ensures var a, b := ConfigureVerdict(c, 0, Proposal(d.spec)).channel,
                        ConfigureVerdict(d, 0, Proposal(c.spec)).channel;
            && a.ertm.Some? && b.ertm.Some? && a.fcsEnabled == b.fcsEnabled
            && ErtmLink.Compatible(a.ertm.value.config, b.ertm.value.config)
            && a.ertm.value.config.peerMps == b.ertm.value.config.localMps
            && b.ertm.value.config.peerMps == a.ertm.value.config.localMps
            && a.ertm.value.config.txWindowSize == d.spec.txWindowSize
               && b.ertm.value.config.txWindowSize == c.spec.txWindowSize
  {
    AcceptedExactlyWhenAgreed(c, d.spec);
    AcceptedExactlyWhenAgreed(d, c.spec);
    hide ConfigureVerdict;
  }

  // ---------------------------------------------------------------------------
  // Closing
  // ---------------------------------------------------------------------------

  lemma CidsRead(f: ControlFrame)
    requires f.DisconnectionRequest? || f.DisconnectionResponse?
    ensures DecodeFrame(EncodeFrame(f)) == Success(f)
  {
    assert |Payload(f)| == 4 by { WordsLength(Fields(f)); }
    SignalingRoundTrip(f);
  }

  lemma RequestQueued(s: Manager, x: u16)
    requires x in s.channels && s.channels[x].state == Open
    ensures var r, id := Disconnect(s, x), NextIdentifier(s.identifier);
            && r.error.None?
            && r.manager.outbound == s.outbound
               + [Pdu(SIGNALING_CID, EncodeFrame(DisconnectionRequest(id, s.channels[x].destinationCid, x)))]
            && r.manager.channels == s.channels[x := s.channels[x].(state := WaitDisconnect)]
  {
    hide EncodeFrame;
  }

  lemma RequestCloses(t: Manager, id: byte, x: u16, y: u16)
    requires y in t.channels && t.channels[y].destinationCid == x
    ensures var r := ProcessPdu(t, Pdu(SIGNALING_CID, EncodeFrame(DisconnectionRequest(id, y, x))));
            && r.error.None?
            && r.manager.outbound == t.outbound + [Pdu(SIGNALING_CID, EncodeFrame(DisconnectionResponse(id, y, x)))]
            && r.manager.channels == t.channels[y := t.channels[y].(state := Closed)]
  {
    hide EncodeFrame, DecodeFrame;
    CidsRead(DisconnectionRequest(id, y, x));
  }

  lemma ResponseCloses(s: Manager, id: byte, x: u16, y: u16)
    requires x in s.channels && s.channels[x].destinationCid == y
    ensures var r := ProcessPdu(s, Pdu(SIGNALING_CID, EncodeFrame(DisconnectionResponse(id, y, x))));
            r.error.None? && r.manager.channels == s.channels[x := s.channels[x].(state := Closed)]
  {
    hide EncodeFrame, DecodeFrame;
    CidsRead(DisconnectionResponse(id, y, x));
  }

  /**
    * Disconnecting one of two mirrored ends closes both: the request closes the other end, its answer closes this
    * one, neither is refused, and no other channel of either manager is touched.
    */
  lemma DisconnectClosesBothEnds(s: Manager, t: Manager, x: u16, y: u16)
    requires x in s.channels && s.channels[x].state == Open && s.channels[x].destinationCid == y
    requires y in t.channels && t.channels[y].destinationCid == x
    ensures var a := Disconnect(s, x);
            && a.error.None? && a.manager.outbound != []
            && var b := ProcessPdu(t, a.manager.outbound[|a.manager.outbound| - 1]);
            && b.error.None? && b.manager.outbound != []
            && b.manager.channels == t.channels[y := t.channels[y].(state := Closed)]
            && var c := ProcessPdu(a.manager, b.manager.outbound[|b.manager.outbound| - 1]);
            && c.error.None?
            && c.manager.channels == s.channels[x := s.channels[x].(state := Closed)]
  {
    hide EncodeFrame, ProcessPdu, Disconnect;
    var id := NextIdentifier(s.identifier);
    RequestQueued(s, x);
    RequestCloses(t, id, x, y);
    var a := Disconnect(s, x).manager;
    ResponseCloses(a, id, x, y);
    assert a.channels[x := a.channels[x].(state := Closed)] == s.channels[x := s.channels[x].(state := Closed)];
  }
}
