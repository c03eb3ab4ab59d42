/**
  * Framing: transfers from an endpoint are pieces of a byte stream, and a packet may
  * start in one transfer and end in another.
  */
module Framer {
  import opened Bytes
  import opened Hci

  const MAX_PACKET: nat := 4096

  datatype FramerError = TooLarge(declared: nat) | Codec(error: HciError)

  // Packets framed, bytes left in the buffer, and what stopped the framing, if anything.
  datatype Framed = Framed(packets: seq<Packet>, rest: seq<byte>, error: Option<FramerError>)

  // The endpoints: events on the interrupt endpoint, ACL data on the bulk endpoint.
  datatype Endpoint = Events | Data

  function TypeOf(e: Endpoint): byte { if e == Events then EVENT_TYPE else ACL_TYPE }

  // The length the buffer's first header declares, once that header is complete.
  function RawLength(e: Endpoint, buffer: seq<byte>): Option<nat> {
    match e
    case Events => if |buffer| < 2 then None else Some(2 + buffer[1] as nat)
    case Data => if |buffer| < 4 then None else Some(4 + Le16At(buffer, 2) as nat)
  }

  // The packet that takes up exactly these bytes.
  function Parse(e: Endpoint, raw: seq<byte>): Result<Packet, HciError> { Decode([TypeOf(e)] + raw) }

  function Frame(e: Endpoint, buffer: seq<byte>): Framed
    decreases |buffer|
  {
    var length := RawLength(e, buffer);
    if length.None? then Framed([], buffer, None)
    else if length.value + 1 > MAX_PACKET then Framed([], [], Some(TooLarge(length.value + 1)))
    else if |buffer| < length.value then Framed([], buffer, None)
    else
      var n := length.value;
      var p := Parse(e, buffer[..n]);
      if p.Failure? then Framed([], buffer[n..], Some(Codec(p.error)))
      else
        var more := Frame(e, buffer[n..]);
        more.(packets := if more.error.None? then [p.value] + more.packets else [])
  }

  /** The loop of `frame_packets`: packets framed before an error are dropped with it. */
  method FramePackets(e: Endpoint, buffer: seq<byte>) returns (r: Framed)
    ensures r == Frame(e, buffer)
  {
    var packets: seq<Packet>, rest := [], buffer;
    assert Frame(e, buffer) == Prepend(packets, Frame(e, rest));
    while true
      invariant Frame(e, buffer) == Prepend(packets, Frame(e, rest))
      decreases |rest|
    {
      var length := RawLength(e, rest);
      if length.None? { break; }
      if length.value + 1 > MAX_PACKET { return Framed([], [], Some(TooLarge(length.value + 1))); }
      if |rest| < length.value { break; }
      var p := Parse(e, rest[..length.value]);
      ghost var before := rest;
      rest := rest[length.value..];
      if p.Failure? { return Framed([], rest, Some(Codec(p.error))); }
      PrependMore(packets, p.value, Frame(e, rest), Frame(e, before));
      packets := packets + [p.value];
    }
    assert packets + [] == packets;
    r := Framed(packets, rest, None);
  }

  // A framing that comes after these packets.
  function Prepend(packets: seq<Packet>, f: Framed): Framed {
    if f.error.Some? then f.(packets := []) else f.(packets := packets + f.packets)
  }

  lemma PrependMore(packets: seq<Packet>, p: Packet, after: Framed, before: Framed)
    requires before == after.(packets := if after.error.None? then [p] + after.packets else [])
    ensures Prepend(packets, before) == Prepend(packets + [p], after)
  {
    assert packets + ([p] + after.packets) == packets + [p] + after.packets;
  }

  // ---------------------------------------------------------------------------
  // Packets as bytes
  // ---------------------------------------------------------------------------

  // A packet of the endpoint that fits the framer's limit.
  predicate Fits(e: Endpoint, p: Packet) {
    && ValidPacket(p)
    && match e
       case Events => p.Event?
       case Data => p.Acl? && 4 + |p.acl.data| < MAX_PACKET
  }

  // The packet's bytes without the type byte, as the transfers carry them.
  function Raw(p: Packet): seq<byte>
    requires ValidPacket(p)
  {
    Encode(p)[1..]
  }

  predicate AllFit(e: Endpoint, packets: seq<Packet>) { forall i :: 0 <= i < |packets| ==> Fits(e, packets[i]) }

  function RawAll(e: Endpoint, packets: seq<Packet>): seq<byte>
    requires AllFit(e, packets)
  {
    if packets == [] then [] else assert Fits(e, packets[0]); Raw(packets[0]) + RawAll(e, packets[1..])
  }

  lemma RawShape(e: Endpoint, p: Packet, more: seq<byte>)
    requires Fits(e, p)
    ensures [TypeOf(e)] + Raw(p) == Encode(p)
    ensures RawLength(e, Raw(p) + more) == Some(|Raw(p)|) && |Raw(p)| < MAX_PACKET
  {
    var raw := Raw(p);
    if e == Data {
      assert raw == Le16(p.acl.handle + 0x1000 * p.acl.boundary + 0x4000 * p.acl.broadcast) + Le16(|p.acl.data|)
             + p.acl.data by {
        HeaderFields(p.acl.handle, p.acl.boundary, p.acl.broadcast);
      }
    } else {
      assert raw == [p.code, |p.parameters|] + p.parameters;
    }
  }

  /** A packet at the front of the buffer is framed, whatever follows. */
  lemma FirstPacket(e: Endpoint, p: Packet, more: seq<byte>)
    requires Fits(e, p)
    ensures Frame(e, Raw(p) + more) == Prepend([p], Frame(e, more))
  {
    RawShape(e, p, more);
    PacketRoundTrip(p);
    var buffer, n := Raw(p) + more, |Raw(p)|;
    assert buffer[..n] == Raw(p) && buffer[n..] == more;
  }

  /** A stream of packets is framed into exactly those packets. */
  lemma {:induction false} StreamFrames(e: Endpoint, packets: seq<Packet>)
    requires AllFit(e, packets)
    ensures Frame(e, RawAll(e, packets)) == Framed(packets, [], None)
  {
    if packets != [] {
      hide Fits, Frame, Raw;
      StreamFrames(e, packets[1..]);
      FirstPacket(e, packets[0], RawAll(e, packets[1..]));
      assert [packets[0]] + packets[1..] == packets;
    } else {
      assert RawLength(e, []).None?;
    }
  }

  lemma ParsedWasRaw(e: Endpoint, raw: seq<byte>)
    requires RawLength(e, raw) == Some(|raw|) && |raw| < MAX_PACKET && Parse(e, raw).Success?
    ensures var p := Parse(e, raw).value;
            Fits(e, p) && Raw(p) == raw
  {
    var data := [TypeOf(e)] + raw;
    DecodedWasEncoded(data);
    assert data[1..] == raw;
    if e == Data { assert Le16At(data, 3) == Le16At(raw, 2); }
  }

  lemma RawFirst(e: Endpoint, p: Packet, packets: seq<Packet>)
    requires Fits(e, p) && AllFit(e, packets)
    ensures AllFit(e, [p] + packets) && RawAll(e, [p] + packets) == Raw(p) + RawAll(e, packets)
  {
    assert ([p] + packets)[1..] == packets;
  }

  /** What is framed and what is left are, together, what was received. */
  lemma {:induction false} FramingConserves(e: Endpoint, buffer: seq<byte>)
    requires Frame(e, buffer).error.None?
    ensures var f := Frame(e, buffer);
            AllFit(e, f.packets) && RawAll(e, f.packets) + f.rest == buffer
    decreases |buffer|
  {
    hide Fits, Raw, RawAll, Parse, AllFit;
    var length := RawLength(e, buffer);
    if length.None? || |buffer| < length.value {
      NothingRaw(e);
      assert [] + buffer == buffer;
    } else {
      var n := length.value;
      var raw := buffer[..n];
      assert RawLength(e, raw) == Some(n);
      ParsedWasRaw(e, raw);
      FramingConserves(e, buffer[n..]);
      var p, more := Parse(e, raw).value, Frame(e, buffer[n..]);
      RawFirst(e, p, more.packets);
      Regroup(raw, RawAll(e, more.packets), more.rest);
      Rejoin(buffer, n);
    }
  }

  lemma Rejoin(a: seq<byte>, n: nat)
    requires n <= |a|
    ensures a[..n] + a[n..] == a
  {
  }

  lemma Regroup(a: seq<byte>, b: seq<byte>, c: seq<byte>)
    ensures a + (b + c) == a + b + c
  {
  }

  lemma NothingRaw(e: Endpoint)
    ensures AllFit(e, []) && RawAll(e, []) == []
  {
  }

  /** The only thing that stops framing is a packet that declares itself too large. */
  lemma {:induction false} OnlyTooLargeFails(e: Endpoint, buffer: seq<byte>)
    ensures Frame(e, buffer).error.Some? ==> Frame(e, buffer).error.value.TooLarge? && e == Data
    decreases |buffer|
  {
    var length := RawLength(e, buffer);
    if length.Some? && length.value + 1 <= MAX_PACKET && length.value <= |buffer| {
      ParseSucceeds(e, buffer[..length.value]);
      OnlyTooLargeFails(e, buffer[length.value..]);
    }
  }

  lemma ParseSucceeds(e: Endpoint, raw: seq<byte>)
    requires RawLength(e, raw) == Some(|raw|)
    ensures Parse(e, raw).Success?
  {
    var data := [TypeOf(e)] + raw;
    assert data[1..] == raw;
    if e == Data { assert Le16At(data, 3) == Le16At(raw, 2); }
  }

  // ---------------------------------------------------------------------------
  // Split independence
  // ---------------------------------------------------------------------------

  /** Framing more bytes later is framing them at once. */
  lemma {:induction false} FrameContinues(e: Endpoint, a: seq<byte>, b: seq<byte>)
    ensures var f := Frame(e, a);
            f.error.None? ==> Frame(e, a + b) == Prepend(f.packets, Frame(e, f.rest + b))
    ensures Frame(e, a).error.Some? ==> Frame(e, a + b).error == Frame(e, a).error
    decreases |a|
  {
    var length, whole := RawLength(e, a), a + b;
    if length.None? {
      assert [] + Frame(e, whole).packets == Frame(e, whole).packets;
      PrependNothing(e, whole);
    } else {
      assert RawLength(e, whole) == length;
      var n := length.value;
      if n + 1 <= MAX_PACKET {
        if |a| < n {
          PrependNothing(e, whole);
        } else {
          assert whole[..n] == a[..n] && whole[n..] == a[n..] + b;
          FrameContinues(e, a[n..], b);
          var p := Parse(e, a[..n]);
          if p.Success? {
            var more := Frame(e, a[n..]);
            if more.error.None? {
              assert Frame(e, a).packets == [p.value] + more.packets;
              PrependPrepend(p.value, more.packets, Frame(e, more.rest + b));
            }
          }
        }
      }
    }
  }

  lemma PrependNothing(e: Endpoint, buffer: seq<byte>)
    ensures Prepend([], Frame(e, buffer)) == Frame(e, buffer)
  {
    ErrorHasNoPackets(e, buffer);
    assert [] + Frame(e, buffer).packets == Frame(e, buffer).packets;
  }

  lemma ErrorHasNoPackets(e: Endpoint, buffer: seq<byte>)
    ensures Frame(e, buffer).error.Some? ==> Frame(e, buffer).packets == []
  {
  }

  lemma PrependPrepend(p: Packet, packets: seq<Packet>, f: Framed)
    ensures Prepend([p] + packets, f) == Prepend([p], Prepend(packets, f))
  {
    assert [p] + packets + f.packets == [p] + (packets + f.packets);
  }

  function Flatten(transfers: seq<seq<byte>>): seq<byte> {
    if transfers == [] then [] else transfers[0] + Flatten(transfers[1..])
  }

  // The transfers one by one, stopping at an error: packets delivered, leftover bytes, error.
  function FeedTransfers(e: Endpoint, buffer: seq<byte>, transfers: seq<seq<byte>>): Framed
    decreases |transfers|
  {
    if transfers == [] then Framed([], buffer, None)
    else
      var f := Frame(e, buffer + transfers[0]);
      if f.error.Some? then f
      else
        var more := FeedTransfers(e, f.rest, transfers[1..]);
        more.(packets := f.packets + more.packets)
  }

  /** However a stream is cut into transfers, the same packets come out, or the same error is reported. */
  lemma {:induction false} SplitIndependence(e: Endpoint, buffer: seq<byte>, transfers: seq<seq<byte>>)
    requires Frame(e, buffer) == Framed([], buffer, None)
    ensures var fed, whole := FeedTransfers(e, buffer, transfers), Frame(e, buffer + Flatten(transfers));
            fed.error == whole.error && (whole.error.None? ==> fed == whole)
    decreases |transfers|
  {
    hide Frame;
    if transfers == [] {
      assert buffer + [] == buffer;
    } else {
      var head := buffer + transfers[0];
      var f := Frame(e, head);
      FrameContinues(e, head, Flatten(transfers[1..]));
      Regroup(buffer, transfers[0], Flatten(transfers[1..]));
      if f.error.None? {
        RestWaits(e, head);
        SplitIndependence(e, f.rest, transfers[1..]);
      }
    }
  }

  /** What framing leaves behind is the beginning of a packet: framing it again does nothing. */
  lemma {:induction false} RestWaits(e: Endpoint, buffer: seq<byte>)
    requires Frame(e, buffer).error.None?
    ensures Frame(e, Frame(e, buffer).rest) == Framed([], Frame(e, buffer).rest, None)
    decreases |buffer|
  {
    var length := RawLength(e, buffer);
    if length.Some? && |buffer| >= length.value { RestWaits(e, buffer[length.value..]); }
  }

  /** A stream of packets arrives as those packets, however it is cut into transfers. */
  lemma StreamArrives(e: Endpoint, packets: seq<Packet>, transfers: seq<seq<byte>>)
    requires AllFit(e, packets)
    requires Flatten(transfers) == RawAll(e, packets)
    ensures FeedTransfers(e, [], transfers) == Framed(packets, [], None)
  {
    assert RawLength(e, []).None?;
    SplitIndependence(e, [], transfers);
    StreamFrames(e, packets);
    assert [] + Flatten(transfers) == RawAll(e, packets);
  }

  // ---------------------------------------------------------------------------
  // Polling both endpoints
  // ---------------------------------------------------------------------------

  // What the backend returns when it is asked to read.
  datatype Read = Bytes(data: seq<byte>) | TimedOut | Failed

  datatype TransportError = Framing(framer: FramerError) | Overrun | Transfer

  class Transport {
    var nextEndpoint: bool
    var eventBytes: seq<byte>
    var aclBytes: seq<byte>
    var pending: seq<Packet>
    // History: everything read from each endpoint, and everything polled.
    ghost var eventsRead: seq<byte>
    ghost var dataRead: seq<byte>
    ghost var polled: seq<Packet>

    // Everything read has been polled, waits as a packet, or waits as bytes of one; endpoint by endpoint, in order.
    ghost predicate Valid()
      reads this
    {
      && Frame(Events, eventsRead) == Framed(OfEndpoint(Events, polled + pending), eventBytes, None)
      && Frame(Data, dataRead) == Framed(OfEndpoint(Data, polled + pending), aclBytes, None)
    }

    constructor ()
      ensures Valid() && polled == [] && pending == []
    {
      nextEndpoint, eventBytes, aclBytes, pending := false, [], [], [];
      eventsRead, dataRead, polled := [], [], [];
    }

    // The endpoint that the next read, if there is one, is from.
    function Turn(): Endpoint
      reads this
    {
      if nextEndpoint then Data else Events
    }

    method PollPacket(read: Read) returns (r: Result<Option<Packet>, TransportError>)
      requires Valid()
      modifies this
      ensures r.Success? || !r.error.Framing? ==> Valid()
      ensures r.Success? ==> polled == old(polled) + (if r.value.Some? then [r.value.value] else [])
      ensures old(pending) != [] ==> r == Success(Some(old(pending)[0])) && nextEndpoint == old(nextEndpoint)
      ensures old(pending) == [] ==> nextEndpoint == !old(nextEndpoint)
      ensures old(pending) == [] && r.Success? ==>
                && eventsRead == old(eventsRead) + (if old(Turn()) == Events && read.Bytes? then read.data else [])
                && dataRead == old(dataRead) + (if old(Turn()) == Data && read.Bytes? then read.data else [])
      ensures r.Failure? && r.error.Framing? ==> old(Turn()) == Data && r.error.framer.TooLarge?
    {
      hide Frame, OfEndpoint, AllFit, RawAll;
      if pending != [] {
        TakeFirst(polled, pending);
        r := Success(Some(pending[0]));
        polled, pending := polled + [pending[0]], pending[1..];
        return;
      }
      var e := Turn();
      nextEndpoint := !nextEndpoint;
      if read.TimedOut? { return Success(None); }
      if read.Failed? { return Failure(Transfer); }
      if read.data == [] { return Success(None); }
      if |read.data| > MAX_PACKET - 1 { return Failure(Overrun); }
      var buffered := (if e == Events then eventBytes else aclBytes) + read.data;
      ghost var all := if e == Events then eventsRead else dataRead;
      var f := FramePackets(e, buffered);
      if e == Events { eventBytes := f.rest; } else { aclBytes := f.rest; }
      OnlyTooLargeFails(e, buffered);
      FrameContinues(e, all, read.data);
      if f.error.Some? { return Failure(Framing(f.error.value)); }
      FramingConserves(e, buffered);
      Kinds(e, f.packets);
      OfEndpointAppend(e, polled, f.packets);
      OfEndpointAppend(Other(e), polled, f.packets);
      assert polled + [] == polled && OfEndpoint(Other(e), polled) + [] == OfEndpoint(Other(e), polled);
      if e == Events { eventsRead := eventsRead + read.data; } else { dataRead := dataRead + read.data; }
      pending := f.packets;
      r := Success(None);
      if pending != [] {
        TakeFirst(polled, pending);
        r := Success(Some(pending[0]));
        polled, pending := polled + [pending[0]], pending[1..];
      }
    }
  }

  function Other(e: Endpoint): Endpoint { if e == Events then Data else Events }

  predicate OnEndpoint(e: Endpoint, p: Packet) { if e == Events then p.Event? else p.Acl? }

  function OfEndpoint(e: Endpoint, packets: seq<Packet>): seq<Packet> {
    if packets == [] then []
    else (if OnEndpoint(e, packets[0]) then [packets[0]] else []) + OfEndpoint(e, packets[1..])
  }

  lemma TakeFirst(polled: seq<Packet>, pending: seq<Packet>)
    requires pending != []
    ensures polled + [pending[0]] + pending[1..] == polled + pending
  {
  }

  lemma {:induction false} OfEndpointAppend(e: Endpoint, a: seq<Packet>, b: seq<Packet>)
    ensures OfEndpoint(e, a + b) == OfEndpoint(e, a) + OfEndpoint(e, b)
  {
    if a == [] {
      assert a + b == b;
    } else {
      var whole := a + b;
      assert whole[0] == a[0] && whole[1..] == a[1..] + b;
      OfEndpointAppend(e, a[1..], b);
      var head := if OnEndpoint(e, a[0]) then [a[0]] else [];
      assert head + (OfEndpoint(e, a[1..]) + OfEndpoint(e, b)) == head + OfEndpoint(e, a[1..]) + OfEndpoint(e, b);
    }
  }

  lemma {:induction false} Kinds(e: Endpoint, packets: seq<Packet>)
    requires AllFit(e, packets)
    ensures OfEndpoint(e, packets) == packets && OfEndpoint(Other(e), packets) == []
  {
    if packets != [] {
      assert Fits(e, packets[0]);
      Kinds(e, packets[1..]);
    }
  }
}
